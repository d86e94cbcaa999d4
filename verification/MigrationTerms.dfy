/** What the terms of a decision amount to: costs, worth, targets, the planned moves, and what becomes of moves that fail. */
module MigrationTerms {
  import opened Types
  import opened Sorting
  import opened KvStore
  import opened MigrationChoice
  import opened Migration
  import opened MigrationEffect

  // ---------------------------------------------------------------- the cost of a move

  /** The table's entry for the node, or the default. */
  ghost predicate IsEntry(table: map<NodeId, real>, default_: real, n: NodeId, x: real) {
    if n in table then x == table[n] else x == default_
  }

  /** The smaller of the two bandwidths, but at least one. */
  ghost predicate IsWidth(a: real, b: real, w: real) {
    && (w == 1.0 || w == a || w == b)
    && w >= 1.0
    && (w > 1.0 ==> w <= a && w <= b)
    && (w == 1.0 ==> a <= 1.0 || b <= 1.0)
  }

  lemma WidthIs(a: real, b: real, w: real)
    requires IsWidth(a, b, w)
    ensures w == if Slower(a, b) > 1.0 then Slower(a, b) else 1.0
  {
  }

  lemma TripAndTransfer(k: Links, bytes: nat, src: Location, dst: Location, a: real, b: real, w: real, trip: real)
    requires IsEntry(k.nodeBandwidth, k.bandwidth, NodeOf(src), a) && IsEntry(k.nodeBandwidth, k.bandwidth, NodeOf(dst), b)
    requires IsWidth(a, b, w)
    requires if NodeOf(src) == NodeOf(dst) then trip == k.localRtt else IsEntry(k.nodeRtt, k.remoteRtt, NodeOf(dst), trip)
    ensures w >= 1.0 && MoveCost(k, bytes, src, dst) == bytes as real / w * 0.001 + trip
  {
    hide NodeOf;
    WidthIs(a, b, w);
  }

  lemma Rescale(x: real, w: real)
    requires w >= 1.0
    ensures x / w * 0.001 * w * 1000.0 == x
  {
    var y := x / w;
    assert y * w == x;
    assert y * 0.001 * w == y * w * 0.001;
  }

  /** A move takes a round trip, which is the local one within a node and that of the destination otherwise, and a millisecond
      for each thousand bytes and unit of width, which is that of the slower of the two links. */
  lemma CostIsTripAndTransfer(k: Links, bytes: nat, src: Location, dst: Location, a: real, b: real, w: real, trip: real)
    requires IsEntry(k.nodeBandwidth, k.bandwidth, NodeOf(src), a) && IsEntry(k.nodeBandwidth, k.bandwidth, NodeOf(dst), b)
    requires IsWidth(a, b, w)
    requires if NodeOf(src) == NodeOf(dst) then trip == k.localRtt else IsEntry(k.nodeRtt, k.remoteRtt, NodeOf(dst), trip)
    ensures (MoveCost(k, bytes, src, dst) - trip) * w * 1000.0 == bytes as real
  {
    hide MoveCost, IsEntry, IsWidth;
    TripAndTransfer(k, bytes, src, dst, a, b, w, trip);
    Rescale(bytes as real, w);
    var transfer := bytes as real / w * 0.001;
    assert MoveCost(k, bytes, src, dst) - trip == transfer;
  }

  // ---------------------------------------------------------------- worth and rank

  /** A block is worth the larger of its reuse count and the least count assumed, times what it costs to compute again. */
  lemma WorthIsRecomputeTime(b: KVBlock, minReuse: nat, count: int)
    requires count >= b.reuseCount && count >= minReuse && (count == b.reuseCount || count == minReuse)
    ensures Worth(b, minReuse) == count as real * b.prefillTimeMs
  {
  }

  /** A block is loaded from the fastest place on the node that has it. */
  lemma LoadsFastestCopy(s: Store, n: NodeId, hash: int)
    ensures var b := LoadedBlock(s, n, hash);
      && (Holds(s, hash, n + ":gpu") ==> b == Some(s.blocks[hash][n + ":gpu"]))
      && (!Holds(s, hash, n + ":gpu") && Holds(s, hash, n + ":cpu") ==> b == Some(s.blocks[hash][n + ":cpu"]))
      && (!Holds(s, hash, n + ":gpu") && !Holds(s, hash, n + ":cpu") ==>
        b == if Holds(s, hash, n + ":disk") then Some(s.blocks[hash][n + ":disk"]) else None)
  {
  }

  /** The blocks are appraised in the order asked for. */
  lemma {:induction false} AppraisedInOrder(s: Store, n: NodeId, ids: seq<int>, minReuse: nat, i: nat, j: nat)
    requires StoreOk(s) && i < j < |Appraised(s, n, ids, minReuse)|
    ensures var vs := Appraised(s, n, ids, minReuse);
      InOrder(ids, vs[i].block.hash, vs[j].block.hash)
  {
    hide StoreOk, LoadedBlock, Worth;
    var k := |ids| - 1;
    var before, vs := Appraised(s, n, ids[..k], minReuse), Appraised(s, n, ids, minReuse);
    if j < |before| {
      AppraisedInOrder(s, n, ids[..k], minReuse, i, j);
      var a, b :| 0 <= a < b < k && ids[..k][a] == before[i].block.hash && ids[..k][b] == before[j].block.hash;
      assert ids[a] == vs[i].block.hash && ids[b] == vs[j].block.hash;
    } else {
      LoadedUnderItsHash(s, n, ids[k]);
      AppraisedWereAsked(s, n, ids[..k], minReuse);
      assert before[i] in before;
      var a :| 0 <= a < k && ids[..k][a] == before[i].block.hash;
      assert ids[a] == vs[i].block.hash && ids[k] == vs[j].block.hash;
    }
  }

  lemma {:induction false} AppraisedWereAsked(s: Store, n: NodeId, ids: seq<int>, minReuse: nat)
    requires StoreOk(s)
    ensures forall v :: v in Appraised(s, n, ids, minReuse) ==> v.block.hash in ids
  {
    hide StoreOk, LoadedBlock, Worth;
    if ids != [] {
      var k := |ids| - 1;
      AppraisedWereAsked(s, n, ids[..k], minReuse);
      LoadedHash(s, n, ids[k]);
      assert ids == ids[..k] + [ids[k]];
    }
  }

  lemma LoadedHash(s: Store, n: NodeId, hash: int)
    requires StoreOk(s)
    ensures LoadedBlock(s, n, hash).Some? ==> LoadedBlock(s, n, hash).value.hash == hash
  {
  }

  /** Of two blocks the one appraised first and worth no less keeps its place before the other. */
  lemma RankIsStable(s: Store, n: NodeId, ids: seq<int>, minReuse: nat, i: nat, j: nat)
    requires i < j < |Appraised(s, n, ids, minReuse)|
    requires Appraised(s, n, ids, minReuse)[i].priority >= Appraised(s, n, ids, minReuse)[j].priority
    ensures InOrder(Ranked(s, n, ids, minReuse), Appraised(s, n, ids, minReuse)[i], Appraised(s, n, ids, minReuse)[j])
  {
    SortKeepsOrder(Appraised(s, n, ids, minReuse), Dearer, i, j);
  }

  // ---------------------------------------------------------------- targets

  ghost predicate IsTargetOf(t: Target, node: (NodeId, NodeState), accepts: NodeState -> bool) {
    node.1.alive && accepts(node.1) && t == Target(node.0, node.1.load, node.1.memoryFree)
  }

  ghost predicate IsTarget(t: Target, available: seq<(NodeId, NodeState)>, accepts: NodeState -> bool) {
    exists a :: 0 <= a < |available| && IsTargetOf(t, available[a], accepts)
  }

  lemma OneMoreNode(t: Target, available: seq<(NodeId, NodeState)>, accepts: NodeState -> bool)
    requires available != []
    ensures var k := |available| - 1;
      IsTarget(t, available, accepts) <==> IsTarget(t, available[..k], accepts) || IsTargetOf(t, available[k], accepts)
  {
    var k := |available| - 1;
    assert forall a :: 0 <= a < k ==> available[..k][a] == available[a];
    if IsTarget(t, available[..k], accepts) {
      var a :| 0 <= a < k && IsTargetOf(t, available[..k][a], accepts);
      assert IsTargetOf(t, available[a], accepts);
    }
  }

  /** The targets are exactly the alive nodes that pass the filter, with their load and free memory. */
  lemma {:induction false} TargetsAreAccepted(available: seq<(NodeId, NodeState)>, accepts: NodeState -> bool)
    ensures forall t :: t in TargetsOf(available, accepts) <==> IsTarget(t, available, accepts)
  {
    hide IsTarget;
    if available != [] {
      TargetsAreAccepted(available[..|available| - 1], accepts);
      forall t
        ensures t in TargetsOf(available, accepts) <==> IsTarget(t, available, accepts)
      {
        OneMoreNode(t, available, accepts);
      }
    } else {
      NoTargets(accepts);
    }
  }

  lemma NoTargets(accepts: NodeState -> bool)
    ensures forall t :: !IsTarget(t, [], accepts)
  {
  }

  ghost predicate AreTargetsInOrder(t: Target, u: Target, available: seq<(NodeId, NodeState)>, accepts: NodeState -> bool) {
    exists a, b :: 0 <= a < b < |available| && IsTargetOf(t, available[a], accepts) && IsTargetOf(u, available[b], accepts)
  }

  /** And they stand in the order of the nodes. */
  lemma {:induction false} TargetsInOrder(available: seq<(NodeId, NodeState)>, accepts: NodeState -> bool, i: nat, j: nat)
    requires i < j < |TargetsOf(available, accepts)|
    ensures AreTargetsInOrder(TargetsOf(available, accepts)[i], TargetsOf(available, accepts)[j], available, accepts)
  {
    var k := |available| - 1;
    var before := TargetsOf(available[..k], accepts);
    if j < |before| {
      TargetsInOrder(available[..k], accepts, i, j);
      var a, b :| 0 <= a < b < k && IsTargetOf(before[i], available[..k][a], accepts)
        && IsTargetOf(before[j], available[..k][b], accepts);
      assert IsTargetOf(before[i], available[a], accepts) && IsTargetOf(before[j], available[b], accepts);
    } else {
      TargetsAreAccepted(available[..k], accepts);
      assert before[i] in before;
      var a :| 0 <= a < k && IsTargetOf(before[i], available[..k][a], accepts);
      assert IsTargetOf(before[i], available[a], accepts);
      assert IsTargetOf(TargetsOf(available, accepts)[j], available[k], accepts);
    }
  }

  // ---------------------------------------------------------------- planned moves

  lemma {:induction false} SourceIsFirstListed(locations: seq<Location>, n: NodeId, i: nat)
    requires i < |locations| && OnNode(locations[i], n) && forall j :: 0 <= j < i ==> !OnNode(locations[j], n)
    ensures FirstOnNode(locations, n) == Some(locations[i])
  {
    if i > 0 {
      SourceIsFirstListed(locations[1..], n, i - 1);
    }
  }

  /** A planned move is of a block that loads, carries its worth and the cost of that very move, and starts at the first
      listed copy on the node. */
  lemma PlannedMoveTerms(s: Store, n: NodeId, ids: seq<int>, targets: seq<Target>, index: map<int, seq<Location>>, minReuse: nat,
                         deadline: Option<real>, links: Links, m: BlockMove)
    requires StoreOk(s) && IndexOf(index, s)
    requires m in PlanFor(s, n, ids, targets, index, minReuse, deadline, links).moves
    ensures m.hash in index && FirstOnNode(index[m.hash], n) == Some(m.src)
    ensures var b := LoadedBlock(s, n, m.hash);
      b.Some? && m.priority == Worth(b.value, minReuse) && m.cost == MoveCost(links, b.value.byteSize, m.src, m.dst)
  {
    hide StoreOk, IndexOf, LoadedBlock, Appraised, MovesOf, DropsOf, Missing, MoveCost, Sort, OnNode, Worth, Choice;
    var ranked := Ranked(s, n, ids, minReuse);
    var offers := Offers(ranked, targets, index, n, links);
    AppraisedAreLoaded(s, n, ids, minReuse);
    MembersOfEqualMultisets(Appraised(s, n, ids, minReuse), ranked);
    MovesComeFromOffers(offers, deadline, m);
    var i :| 0 <= i < |offers| && IsMoveOf(m, offers[i]);
    OfferAt(ranked, targets, index, n, links, i);
    assert ranked[i] in ranked;
    LoadedIsListed(s, n, m.hash, index);
  }

  lemma LoadedIsListed(s: Store, n: NodeId, hash: int, index: map<int, seq<Location>>)
    requires IndexOf(index, s) && LoadedBlock(s, n, hash).Some?
    ensures hash in index && FirstOnNode(index[hash], n).Some?
  {
    assert hash in index && Lists(index[hash], s.blocks[hash].Keys);
    FirstOnNodeIsOne(index[hash], n);
    assert OnNode(n + ":gpu", n) && OnNode(n + ":cpu", n) && OnNode(n + ":disk", n);
  }

  /** Without a deadline every offer that has a target is a planned move, in order. */
  lemma {:induction false} AllOffersMove(offers: seq<Offer>, k: nat)
    requires (forall i :: 0 <= i < |offers| ==> offers[i].dst.Some?) && k < |offers|
    ensures |MovesOf(offers, None)| == |offers| && IsMoveOf(MovesOf(offers, None)[k], offers[k])
  {
    var n := |offers| - 1;
    if n > 0 {
      AllOffersMove(offers[..n], if k < n then k else 0);
    } else {
      assert offers[..0] == [];
    }
  }

  // ---------------------------------------------------------------- moves that fail

  /** The move finds no copy where it expects one. */
  ghost predicate Fails(s: Store, m: BlockMove) {
    m.src == "" || !Holds(s, m.hash, m.src)
  }

  lemma OneMoveOneHash(s: Store, m: BlockMove)
    ensures MoveOne(s, m).Failure? <==> Fails(s, m)
    ensures MoveOne(s, m).Success? ==> forall h :: h != m.hash ==> CopiesOf(MoveOne(s, m).value, h) == CopiesOf(s, h)
    ensures MoveOne(s, m).Success? && m.src != m.dst ==> CopiesOf(MoveOne(s, m).value, m.hash) == CopiesAfter(s, m)
  {
  }

  lemma SameCopiesSameFate(s: Store, t: Store, m: BlockMove)
    requires CopiesOf(s, m.hash) == CopiesOf(t, m.hash)
    ensures Fails(s, m) <==> Fails(t, m)
    ensures CopiesAfter(s, m) == CopiesAfter(t, m)
  {
    assert forall l :: Holds(s, m.hash, l) <==> l in CopiesOf(s, m.hash);
    assert forall l :: Holds(t, m.hash, l) <==> l in CopiesOf(t, m.hash);
  }

  /** Moves of different blocks do not get in each other's way: exactly those fail that find no copy in the store at the start,
      and blocks without a move keep their copies. */
  lemma {:induction false} WhichMovesFail(s: Store, moves: seq<BlockMove>)
    requires DistinctMoves(moves)
    ensures forall h :: h !in HashesOf(moves) ==> CopiesOf(MovedEach(s, moves), h) == CopiesOf(s, h)
    ensures forall m :: m in moves ==> (m.hash in FailedMoves(s, moves) <==> Fails(s, m))
    ensures forall h :: h in FailedMoves(s, moves) ==> h in HashesOf(moves)
    ensures forall m :: m in moves ==>
      if Fails(s, m) then CopiesOf(MovedEach(s, moves), m.hash) == CopiesOf(s, m.hash)
      else m.src != m.dst ==> CopiesOf(MovedEach(s, moves), m.hash) == CopiesAfter(s, m)
  {
    hide MoveOne, CopiesOf, CopiesAfter, Fails;
    if moves != [] {
      var k := |moves| - 1;
      var before, last := MovedEach(s, moves[..k]), moves[k];
      WhichMovesFail(s, moves[..k]);
      assert moves == moves[..k] + [last];
      assert HashesOf(moves) == HashesOf(moves[..k]) + [last.hash];
      assert last.hash !in HashesOf(moves[..k]);
      OneMoveOneHash(before, last);
      SameCopiesSameFate(s, before, last);
      HashesOfMoves(moves[..k]);
    }
  }
}
