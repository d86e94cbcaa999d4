/** What a decision amounts to, and what is left in the store once it has been carried out. */
module MigrationEffect {
  import opened Types
  import opened Sorting
  import opened KvStore
  import opened MigrationChoice
  import opened Migration

  // ---------------------------------------------------------------- every block is moved or dropped, once

  function HashesIn(vs: seq<Valued>): (r: seq<int>)
    ensures |r| == |vs|
  {
    seq(|vs|, i requires 0 <= i < |vs| => vs[i].block.hash)
  }

  lemma NoHashes()
    ensures HashesIn([]) == [] && HashesOf([]) == [] && OfferHashes([]) == []
  {
  }

  lemma HashesCons(v: Valued, vs: seq<Valued>)
    ensures multiset(HashesIn([v] + vs)) == multiset{v.block.hash} + multiset(HashesIn(vs))
    ensures multiset(HashesIn(vs + [v])) == multiset(HashesIn(vs)) + multiset{v.block.hash}
  {
    assert HashesIn([v] + vs) == [v.block.hash] + HashesIn(vs);
    assert HashesIn(vs + [v]) == HashesIn(vs) + [v.block.hash];
  }

  lemma Regroup(a: multiset<int>, b: multiset<int>, c: multiset<int>)
    ensures a + (b + c) == (a + b) + c
    ensures (a + b) + c == (a + c) + b
  {
  }

  lemma InsertInFront(v: Valued, vs: seq<Valued>)
    ensures Insert(v, vs, Dearer)
         == if vs == [] || Dearer(v, vs[0]) then [v] + vs else [vs[0]] + Insert(v, vs[1..], Dearer)
  {
  }

  lemma {:induction false} InsertedHashes(v: Valued, vs: seq<Valued>)
    ensures multiset(HashesIn(Insert(v, vs, Dearer))) == multiset(HashesIn(vs)) + multiset{v.block.hash}
  {
    hide HashesIn, Dearer, Insert;
    HashesCons(v, vs);
    InsertInFront(v, vs);
    if vs != [] && !Dearer(v, vs[0]) {
      InsertedHashes(v, vs[1..]);
      HashesCons(vs[0], vs[1..]);
      HashesCons(vs[0], Insert(v, vs[1..], Dearer));
      assert [vs[0]] + vs[1..] == vs;
      Regroup(multiset{vs[0].block.hash}, multiset(HashesIn(vs[1..])), multiset{v.block.hash});
    }
  }

  lemma {:induction false} RankedHashes(vs: seq<Valued>)
    ensures multiset(HashesIn(Sort(vs, Dearer))) == multiset(HashesIn(vs))
  {
    hide HashesIn, Dearer, Insert;
    if vs != [] {
      RankedHashes(vs[1..]);
      InsertedHashes(vs[0], Sort(vs[1..], Dearer));
      HashesCons(vs[0], vs[1..]);
      assert [vs[0]] + vs[1..] == vs;
    }
  }

  lemma {:induction false} AppraisedHashes(s: Store, n: NodeId, ids: seq<int>, minReuse: nat)
    requires StoreOk(s)
    ensures multiset(HashesIn(Appraised(s, n, ids, minReuse))) + multiset(Missing(s, n, ids)) == multiset(ids)
  {
    hide HashesIn, Worth, StoreOk, LoadedBlock;
    if ids != [] {
      var k := |ids| - 1;
      AppraisedHashes(s, n, ids[..k], minReuse);
      assert ids == ids[..k] + [ids[k]];
      var b := LoadedBlock(s, n, ids[k]);
      Regroup(multiset(HashesIn(Appraised(s, n, ids[..k], minReuse))), multiset(Missing(s, n, ids[..k])), multiset{ids[k]});
      if b.None? {
        assert Missing(s, n, ids) == Missing(s, n, ids[..k]) + [ids[k]];
        assert Appraised(s, n, ids, minReuse) == Appraised(s, n, ids[..k], minReuse);
      } else {
        assert Missing(s, n, ids) == Missing(s, n, ids[..k]);
        LoadedUnderItsHash(s, n, ids[k]);
        HashesCons(Valued(b.value, Worth(b.value, minReuse)), Appraised(s, n, ids[..k], minReuse));
      }
    } else {
      NoHashes();
      assert Appraised(s, n, ids, minReuse) == [] && Missing(s, n, ids) == [] && ids == [];
    }
  }

  lemma LoadedUnderItsHash(s: Store, n: NodeId, hash: int)
    requires StoreOk(s) && LoadedBlock(s, n, hash).Some?
    ensures LoadedBlock(s, n, hash).value.hash == hash
  {
  }

  lemma {:induction false} AppraisedAreLoaded(s: Store, n: NodeId, ids: seq<int>, minReuse: nat)
    requires StoreOk(s)
    ensures forall v :: v in Appraised(s, n, ids, minReuse) ==>
      LoadedBlock(s, n, v.block.hash) == Some(v.block) && v.priority == Worth(v.block, minReuse)
  {
    hide Worth, StoreOk, LoadedBlock;
    if ids != [] {
      var k := |ids| - 1;
      AppraisedAreLoaded(s, n, ids[..k], minReuse);
      if LoadedBlock(s, n, ids[k]).Some? {
        LoadedUnderItsHash(s, n, ids[k]);
      }
    }
  }

  lemma {:induction false} OffersSplit(offers: seq<Offer>, deadline: Option<real>)
    ensures multiset(HashesOf(MovesOf(offers, deadline))) + multiset(DropsOf(offers, deadline)) == multiset(OfferHashes(offers))
  {
    hide Kept, HashesOf, MovesOf, DropsOf, OfferHashes, Spent;
    if offers != [] {
      var k := |offers| - 1;
      OffersSplit(offers[..k], deadline);
      OneMoreOffer(offers, deadline, k);
      assert offers[..k + 1] == offers;
      LastOfferHash(offers);
      var o := offers[k];
      Regroup(multiset(HashesOf(MovesOf(offers[..k], deadline))), multiset(DropsOf(offers[..k], deadline)), multiset{o.hash});
      if DropsOf(offers, deadline) == DropsOf(offers[..k], deadline) + [o.hash] {
        assert MovesOf(offers, deadline) == MovesOf(offers[..k], deadline);
      } else {
        assert DropsOf(offers, deadline) == DropsOf(offers[..k], deadline);
        MoveHashesSnoc(MovesOf(offers[..k], deadline), BlockMove(o.hash, o.src, o.dst.value, o.priority, o.cost));
      }
    } else {
      BeforeAny(offers, [], [], deadline);
      NoHashes();
      assert offers == [] && MovesOf(offers, deadline) == [] && DropsOf(offers, deadline) == [];
    }
  }

  lemma LastOfferHash(offers: seq<Offer>)
    requires offers != []
    ensures multiset(OfferHashes(offers)) == multiset(OfferHashes(offers[..|offers| - 1])) + multiset{offers[|offers| - 1].hash}
  {
    assert OfferHashes(offers) == OfferHashes(offers[..|offers| - 1]) + [offers[|offers| - 1].hash];
  }

  lemma MoveHashesSnoc(moves: seq<BlockMove>, m: BlockMove)
    ensures multiset(HashesOf(moves + [m])) == multiset(HashesOf(moves)) + multiset{m.hash}
  {
    assert HashesOf(moves + [m]) == HashesOf(moves) + [m.hash];
  }

  function OfferHashes(offers: seq<Offer>): (r: seq<int>)
    ensures |r| == |offers|
  {
    seq(|offers|, i requires 0 <= i < |offers| => offers[i].hash)
  }

  /** Each block asked about ends up in exactly one of the two lists. */
  lemma PlanPartitions(s: Store, n: NodeId, ids: seq<int>, targets: seq<Target>, index: map<int, seq<Location>>, minReuse: nat,
                       deadline: Option<real>, links: Links)
    requires StoreOk(s)
    ensures var p := PlanFor(s, n, ids, targets, index, minReuse, deadline, links);
      multiset(HashesOf(p.moves)) + multiset(p.drops) == multiset(ids)
  {
    hide StoreOk, Sort, Appraised, Missing, MovesOf, DropsOf;
    var ranked := Ranked(s, n, ids, minReuse);
    var offers := Offers(ranked, targets, index, n, links);
    AppraisedHashes(s, n, ids, minReuse);
    RankedHashes(Appraised(s, n, ids, minReuse));
    assert OfferHashes(offers) == HashesIn(ranked);
    OffersSplit(offers, deadline);
  }

  // ---------------------------------------------------------------- moves are possible

  ghost predicate MoveSound(s: Store, n: NodeId, targets: seq<Target>, m: BlockMove) {
    && Holds(s, m.hash, m.src) && OnNode(m.src, n)
    && exists i :: 0 <= i < |targets| && m.dst == targets[i].nodeId + ":gpu"
  }

  lemma SourceIsHeld(s: Store, n: NodeId, hash: int, index: map<int, seq<Location>>)
    requires IndexOf(index, s) && LoadedBlock(s, n, hash).Some?
    ensures Holds(s, hash, SourceOf(index, hash, n)) && OnNode(SourceOf(index, hash, n), n)
  {
    assert hash in index && Lists(index[hash], s.blocks[hash].Keys);
    FirstOnNodeIsOne(index[hash], n);
    assert OnNode(n + ":gpu", n) && OnNode(n + ":cpu", n) && OnNode(n + ":disk", n);
  }

  ghost predicate IsMoveOf(m: BlockMove, o: Offer) {
    o.dst.Some? && m == BlockMove(o.hash, o.src, o.dst.value, o.priority, o.cost)
  }

  lemma {:induction false} MovesComeFromOffers(offers: seq<Offer>, deadline: Option<real>, m: BlockMove)
    requires m in MovesOf(offers, deadline)
    ensures exists i :: 0 <= i < |offers| && IsMoveOf(m, offers[i])
  {
    var k := |offers| - 1;
    if m in MovesOf(offers[..k], deadline) {
      MovesComeFromOffers(offers[..k], deadline, m);
      var i :| 0 <= i < k && IsMoveOf(m, offers[..k][i]);
      assert offers[i] == offers[..k][i];
    } else {
      assert IsMoveOf(m, offers[k]);
    }
  }

  lemma PlannedMovesSound(s: Store, n: NodeId, ids: seq<int>, targets: seq<Target>, index: map<int, seq<Location>>, minReuse: nat,
                          deadline: Option<real>, links: Links)
    requires StoreOk(s) && IndexOf(index, s)
    ensures forall m :: m in PlanFor(s, n, ids, targets, index, minReuse, deadline, links).moves ==> MoveSound(s, n, targets, m)
  {
    hide StoreOk, IndexOf, LoadedBlock, SourceOf, Appraised, MovesOf, DropsOf, Missing, MoveCost, Sort, OnNode;
    var ranked := Ranked(s, n, ids, minReuse);
    var offers := Offers(ranked, targets, index, n, links);
    AppraisedAreLoaded(s, n, ids, minReuse);
    MembersOfEqualMultisets(Appraised(s, n, ids, minReuse), ranked);
    forall m | m in MovesOf(offers, deadline)
      ensures MoveSound(s, n, targets, m)
    {
      MovesComeFromOffers(offers, deadline, m);
      var i :| 0 <= i < |offers| && IsMoveOf(m, offers[i]);
      OfferAt(ranked, targets, index, n, links, i);
      assert ranked[i] in ranked;
      SourceIsHeld(s, n, ranked[i].block.hash, index);
    }
  }

  // ---------------------------------------------------------------- carrying it out

  ghost predicate DistinctMoves(moves: seq<BlockMove>) {
    forall i, j :: 0 <= i < j < |moves| ==> moves[i].hash != moves[j].hash
  }

  /** Every move finds its block where it expects it, and goes elsewhere. */
  ghost predicate Possible(s: Store, m: BlockMove) {
    m.src != "" && m.src != m.dst && Holds(s, m.hash, m.src)
  }

  /** The copies of a moved block: the one at the source has gone to the destination. */
  function CopiesAfter(s: Store, m: BlockMove): map<Location, KVBlock> {
    if !Holds(s, m.hash, m.src) then map[]
    else s.blocks[m.hash][m.dst := s.blocks[m.hash][m.src]] - {m.src}
  }

  ghost predicate MovedTo(s: Store, t: Store, moves: seq<BlockMove>) {
    && t.order == s.order && t.blocks.Keys == s.blocks.Keys
    && (forall m :: m in moves ==> CopiesOf(t, m.hash) == CopiesAfter(s, m))
    && (forall h :: h in s.blocks && h !in HashesOf(moves) ==> t.blocks[h] == s.blocks[h])
  }

  lemma OneMoreMove(s: Store, before: Store, done: seq<BlockMove>, m: BlockMove)
    requires MovedTo(s, before, done) && Possible(s, m) && m.hash !in HashesOf(done)
    ensures MoveOne(before, m).Success?
    ensures MovedTo(s, MoveOne(before, m).value, done + [m])
  {
    assert HashesOf(done + [m]) == HashesOf(done) + [m.hash];
    assert before.blocks[m.hash] == s.blocks[m.hash];
    var t := MoveOne(before, m).value;
    forall o | o in done + [m]
      ensures CopiesOf(t, o.hash) == CopiesAfter(s, o)
    {
      if o in done {
        var i :| 0 <= i < |done| && done[i] == o;
        assert HashesOf(done)[i] == o.hash;
      }
    }
  }

  lemma {:induction false} AllMovesSucceed(s: Store, moves: seq<BlockMove>)
    requires DistinctMoves(moves) && forall m :: m in moves ==> Possible(s, m)
    ensures FailedMoves(s, moves) == []
    ensures MovedTo(s, MovedEach(s, moves), moves)
  {
    hide Possible, MovedTo, MoveOne;
    if moves != [] {
      var k := |moves| - 1;
      AllMovesSucceed(s, moves[..k]);
      assert moves == moves[..k] + [moves[k]];
      OneMoreMove(s, MovedEach(s, moves[..k]), moves[..k], moves[k]);
    } else {
      NothingMoved(s);
    }
  }

  lemma NothingMoved(s: Store)
    ensures MovedTo(s, s, [])
  {
  }

  lemma {:induction false} EvictionsRemove(s: Store, hashes: seq<int>)
    requires StoreOk(s)
    ensures var t := EvictedEach(s, hashes);
      && StoreOk(t)
      && (forall h :: h in t.blocks <==> h in s.blocks && h !in hashes)
      && (forall h :: h in t.blocks ==> t.blocks[h] == s.blocks[h])
  {
    hide StoreOk;
    if hashes != [] {
      var k := |hashes| - 1;
      EvictionsRemove(s, hashes[..k]);
      assert hashes == hashes[..k] + [hashes[k]];
      OperationsKeepStoreOk(EvictedEach(s, hashes[..k]), KVBlock(0, 0, None, None, 0, 0.0), hashes[k], "*", "");
    }
  }

  /** The store after the migration, block by block. */
  ghost predicate Migrated(s: Store, t: Store, plan: MigrationPlan) {
    && StoreOk(t)
    && (forall m :: m in plan.moves ==> m.hash in t.blocks && t.blocks[m.hash] == CopiesAfter(s, m))
    && (forall h :: h in plan.drops ==> h !in t.blocks)
    && (forall h :: h !in HashesOf(plan.moves) && h !in plan.drops ==> CopiesOf(t, h) == CopiesOf(s, h))
  }

  lemma {:induction false} MovesKeepStoreOk(s: Store, moves: seq<BlockMove>)
    requires StoreOk(s)
    ensures StoreOk(MovedEach(s, moves))
  {
    hide StoreOk;
    if moves != [] {
      var k := |moves| - 1;
      MovesKeepStoreOk(s, moves[..k]);
      OperationsKeepStoreOk(MovedEach(s, moves[..k]), KVBlock(0, 0, None, None, 0, 0.0), moves[k].hash, moves[k].src, moves[k].dst);
    }
  }

  lemma ExecutionMigrates(s: Store, plan: MigrationPlan)
    requires StoreOk(s) && DistinctMoves(plan.moves)
    requires forall m :: m in plan.moves ==> Possible(s, m) && m.hash !in plan.drops
    ensures FailedMoves(s, plan.moves) == []
    ensures Migrated(s, EvictedEach(MovedEach(s, plan.moves), plan.drops), plan)
  {
    hide StoreOk, MovedEach, EvictedEach, FailedMoves, CopiesAfter;
    AllMovesSucceed(s, plan.moves);
    MovesKeepStoreOk(s, plan.moves);
    EvictionsRemove(MovedEach(s, plan.moves), plan.drops);
  }

  // ---------------------------------------------------------------- decide, then execute

  /** No target's location looks like one of the leaving node. */
  ghost predicate TargetsElsewhere(targets: seq<Target>, n: NodeId) {
    forall i :: 0 <= i < |targets| ==> !OnNode(targets[i].nodeId + ":gpu", n)
  }

  /** Which is so when ids are colon-free and the leaving node is not a target. */
  lemma ColonFreeTargetsElsewhere(targets: seq<Target>, n: NodeId)
    requires NoColon(n) && forall i :: 0 <= i < |targets| ==> NoColon(targets[i].nodeId) && targets[i].nodeId != n
    ensures TargetsElsewhere(targets, n)
  {
    forall i | 0 <= i < |targets|
      ensures !OnNode(targets[i].nodeId + ":gpu", n)
    {
      var l := targets[i].nodeId + ":gpu";
      assert l == targets[i].nodeId + ":" + "gpu";
      NodeOfNamed(targets[i].nodeId, "gpu");
      if OnNode(l, n) {
        assert l == n + ":" + l[|n| + 1..];
        NodeOfNamed(n, l[|n| + 1..]);
      }
    }
  }

  lemma {:induction false} NodeOfNamed(n: NodeId, rest: string)
    requires NoColon(n)
    ensures NodeOf(n + ":" + rest) == n
  {
    if n == "" {
      assert ("" + ":" + rest)[0] == ':';
    } else {
      NodeOfNamed(n[1..], rest);
      assert (n + ":" + rest)[1..] == n[1..] + ":" + rest;
      assert (n + ":" + rest)[0] == n[0];
    }
  }

  lemma DistinctFromPartition(moves: seq<BlockMove>, drops: seq<int>, ids: seq<int>)
    requires multiset(HashesOf(moves)) + multiset(drops) == multiset(ids) && NoRepeats(ids)
    ensures DistinctMoves(moves) && forall m :: m in moves ==> m.hash in ids && m.hash !in drops
    ensures forall h :: h in ids <==> h in HashesOf(moves) || h in drops
    ensures NoRepeats(drops)
  {
    forall h
      ensures multiset(ids)[h] <= 1 && (h in ids <==> h in HashesOf(moves) || h in drops)
    {
      AtMostOnce(ids, h);
      assert h in ids <==> h in multiset(ids);
      assert h in HashesOf(moves) <==> h in multiset(HashesOf(moves));
      assert h in drops <==> h in multiset(drops);
    }
    forall m | m in moves
      ensures m.hash in ids && m.hash !in drops
    {
      var i :| 0 <= i < |moves| && moves[i] == m;
      assert HashesOf(moves)[i] == m.hash;
      assert m.hash in multiset(HashesOf(moves));
      assert m.hash in drops ==> m.hash in multiset(drops);
    }
    forall i, j | 0 <= i < j < |moves|
      ensures moves[i].hash != moves[j].hash
    {
      AtMostOnce(ids, HashesOf(moves)[i]);
      if HashesOf(moves)[i] == HashesOf(moves)[j] {
        CountAtLeastTwo(HashesOf(moves), i, j);
      }
    }
    forall i, j | 0 <= i < j < |drops|
      ensures drops[i] != drops[j]
    {
      AtMostOnce(ids, drops[i]);
      if drops[i] == drops[j] {
        CountAtLeastTwo(drops, i, j);
      }
    }
  }

  lemma AtMostOnce(ids: seq<int>, h: int)
    requires NoRepeats(ids)
    ensures multiset(ids)[h] <= 1
  {
    if multiset(ids)[h] >= 2 {
      var i, j := TwoPositions(ids, h);
    }
  }

  /** The whole operation for the blocks of a leaving node: each is moved or dropped, every move succeeds, moved blocks are
      at their destination, dropped ones are gone, all others are untouched, and the store stays well-formed. */
  lemma LeavingNodeIsMigrated(s: Store, n: NodeId, ids: seq<int>, targets: seq<Target>, index: map<int, seq<Location>>,
                              minReuse: nat, deadline: Option<real>, links: Links)
    requires StoreOk(s) && IndexOf(index, s) && NoRepeats(ids) && TargetsElsewhere(targets, n)
    ensures var p := PlanFor(s, n, ids, targets, index, minReuse, deadline, links);
      && DistinctMoves(p.moves) && NoRepeats(p.drops)
      && (forall h :: h in ids <==> h in HashesOf(p.moves) || h in p.drops)
      && (forall m :: m in p.moves ==> m.hash !in p.drops && Possible(s, m) && MoveSound(s, n, targets, m))
      && FailedMoves(s, p.moves) == []
      && Migrated(s, EvictedEach(MovedEach(s, p.moves), p.drops), p)
  {
    hide StoreOk, IndexOf, PlanFor, Migrated, EvictedEach, MovedEach, FailedMoves, HashesOf;
    var p := PlanFor(s, n, ids, targets, index, minReuse, deadline, links);
    PlanPartitions(s, n, ids, targets, index, minReuse, deadline, links);
    DistinctFromPartition(p.moves, p.drops, ids);
    PlannedMovesSound(s, n, ids, targets, index, minReuse, deadline, links);
    ExecutionMigrates(s, p);
  }

  /** Nothing of the node is left in the store exactly when no moved block had a second copy there: execute moves one copy. */
  lemma NodeIsEmptyIff(s: Store, n: NodeId, ids: seq<int>, targets: seq<Target>, index: map<int, seq<Location>>,
                       minReuse: nat, deadline: Option<real>, links: Links)
    requires StoreOk(s) && IndexOf(index, s) && NoRepeats(ids) && TargetsElsewhere(targets, n)
    requires forall h :: h in ids <==> HeldOn(s, h, n)
    ensures var p := PlanFor(s, n, ids, targets, index, minReuse, deadline, links);
      var t := EvictedEach(MovedEach(s, p.moves), p.drops);
      (forall h :: !HeldOn(t, h, n)) <==> forall m :: m in p.moves ==> HeldOnce(s, m.hash, n)
  {
    hide StoreOk, IndexOf, PlanFor, EvictedEach, MovedEach, FailedMoves, HashesOf, OnNode;
    var p := PlanFor(s, n, ids, targets, index, minReuse, deadline, links);
    LeavingNodeIsMigrated(s, n, ids, targets, index, minReuse, deadline, links);
    var t := EvictedEach(MovedEach(s, p.moves), p.drops);
    forall m | m in p.moves
      ensures HeldOn(t, m.hash, n) <==> !HeldOnce(s, m.hash, n)
    {
      MovedBlockLeavesIff(s, t, n, m);
    }
    forall h | h !in HashesOf(p.moves)
      ensures !HeldOn(t, h, n)
    {
      if h !in p.drops {
        assert CopiesOf(t, h) == CopiesOf(s, h) && !HeldOn(s, h, n);
        assert forall l :: Holds(t, h, l) ==> Holds(s, h, l);
      }
    }
    MovedHashes(p.moves);
    if forall h :: !HeldOn(t, h, n) {
      assert forall m :: m in p.moves ==> !HeldOn(t, m.hash, n);
    }
  }

  lemma {:induction false} NothingDroppedForCost(offers: seq<Offer>)
    requires forall i :: 0 <= i < |offers| ==> offers[i].dst.Some?
    ensures DropsOf(offers, None) == []
  {
    if offers != [] {
      NothingDroppedForCost(offers[..|offers| - 1]);
    }
  }

  lemma {:induction false} NothingMovesNowhere(offers: seq<Offer>, deadline: Option<real>)
    requires forall i :: 0 <= i < |offers| ==> offers[i].dst.None?
    ensures MovesOf(offers, deadline) == []
  {
    if offers != [] {
      NothingMovesNowhere(offers[..|offers| - 1], deadline);
    }
  }

  lemma {:induction false} MissingDoNotLoad(s: Store, n: NodeId, ids: seq<int>)
    ensures forall h :: h in Missing(s, n, ids) <==> h in ids && LoadedBlock(s, n, h).None?
  {
    hide LoadedBlock;
    if ids != [] {
      var k := |ids| - 1;
      MissingDoNotLoad(s, n, ids[..k]);
      assert ids == ids[..k] + [ids[k]];
    }
  }

  /** Without a deadline exactly the blocks that load are moved, if there is anywhere to move them. */
  lemma MovedWithoutDeadline(s: Store, n: NodeId, ids: seq<int>, targets: seq<Target>, index: map<int, seq<Location>>,
                             minReuse: nat, links: Links)
    requires StoreOk(s) && NoRepeats(ids)
    ensures var moves := PlanFor(s, n, ids, targets, index, minReuse, None, links).moves;
      forall h :: h in HashesOf(moves) <==> targets != [] && h in ids && LoadedBlock(s, n, h).Some?
  {
    hide StoreOk, LoadedBlock, Ranked, Offers, MovesOf, DropsOf, Missing, HashesOf;
    var p := PlanFor(s, n, ids, targets, index, minReuse, None, links);
    var ranked := Ranked(s, n, ids, minReuse);
    var offers := Offers(ranked, targets, index, n, links);
    PlanPartitions(s, n, ids, targets, index, minReuse, None, links);
    DistinctFromPartition(p.moves, p.drops, ids);
    MissingDoNotLoad(s, n, ids);
    MovedHashes(p.moves);
    forall i | 0 <= i < |offers|
      ensures offers[i].dst.Some? <==> targets != []
    {
      OfferAt(ranked, targets, index, n, links, i);
    }
    if targets != [] {
      NothingDroppedForCost(offers);
    } else {
      NothingMovesNowhere(offers, None);
      assert HashesOf([]) == [];
    }
  }

  /** Without a deadline the condition can be read off the store: nothing of the node is left exactly when there was no
      target at all, or no block that loads had a second copy on the node. */
  lemma NodeIsEmptyWithoutDeadlineIff(s: Store, n: NodeId, ids: seq<int>, targets: seq<Target>, index: map<int, seq<Location>>,
                                      minReuse: nat, links: Links)
    requires StoreOk(s) && IndexOf(index, s) && NoRepeats(ids) && TargetsElsewhere(targets, n)
    requires forall h :: h in ids <==> HeldOn(s, h, n)
    ensures var p := PlanFor(s, n, ids, targets, index, minReuse, None, links);
      var t := EvictedEach(MovedEach(s, p.moves), p.drops);
      (forall h :: !HeldOn(t, h, n)) <==> targets == [] || forall h :: LoadedBlock(s, n, h).Some? ==> HeldOnce(s, h, n)
  {
    hide StoreOk, IndexOf, PlanFor, EvictedEach, MovedEach, HashesOf, OnNode, HeldOnce, HeldOn, LoadedBlock;
    var p := PlanFor(s, n, ids, targets, index, minReuse, None, links);
    NodeIsEmptyIff(s, n, ids, targets, index, minReuse, None, links);
    MovedWithoutDeadline(s, n, ids, targets, index, minReuse, links);
    MovedHashes(p.moves);
    HashesOfMoves(p.moves);
    forall h | LoadedBlock(s, n, h).Some?
      ensures HeldOn(s, h, n)
    {
      LoadedIsHeld(s, n, h);
    }
  }

  lemma HashesOfMoves(moves: seq<BlockMove>)
    ensures forall m :: m in moves ==> m.hash in HashesOf(moves)
  {
    forall m | m in moves
      ensures m.hash in HashesOf(moves)
    {
      var i :| 0 <= i < |moves| && moves[i] == m;
      assert HashesOf(moves)[i] == m.hash;
    }
  }

  lemma LoadedIsHeld(s: Store, n: NodeId, h: int)
    requires LoadedBlock(s, n, h).Some?
    ensures HeldOn(s, h, n)
  {
    assert OnNode(n + ":gpu", n) && OnNode(n + ":cpu", n) && OnNode(n + ":disk", n);
  }

  /** Such a block can be in a store: one copy on the accelerator and one in main memory of the node. Moving it leaves the
      second copy behind. */
  lemma SecondCopyStays(b: KVBlock, n: NodeId, target: NodeId, priority: real, cost: real)
    requires NoColon(n) && NoColon(target) && target != n
    ensures var s := Saved(Saved(Store(map[], []), b, n + ":gpu"), b, n + ":cpu");
      var m := BlockMove(b.hash, n + ":gpu", target + ":gpu", priority, cost);
      && StoreOk(s) && Possible(s, m) && !HeldOnce(s, b.hash, n)
      && FailedMoves(s, [m]) == [] && HeldOn(MovedEach(s, [m]), b.hash, n)
  {
    hide NoColon, StoreOk;
    var empty := Store(map[], []);
    var gpu, cpu := n + ":gpu", n + ":cpu";
    var s := Saved(Saved(empty, b, gpu), b, cpu);
    assert StoreOk(empty) by { EmptyStoreOk(); }
    SaveKeepsStoreOk(empty, b, gpu);
    SaveKeepsStoreOk(Saved(empty, b, gpu), b, cpu);
    assert gpu[|n| + 1] != cpu[|n| + 1];
    assert OnNode(gpu, n) && OnNode(cpu, n);
    assert Holds(s, b.hash, gpu) && Holds(s, b.hash, cpu);
    var m := BlockMove(b.hash, gpu, target + ":gpu", priority, cost);
    assert gpu != m.dst by {
      NodeOfNamed(n, "gpu");
      NodeOfNamed(target, "gpu");
      assert gpu == n + ":" + "gpu" && m.dst == target + ":" + "gpu";
    }
    assert [m][..0] == [] && MovedEach(s, [m]) == Moved(s, b.hash, gpu, m.dst).value;
    assert Holds(MovedEach(s, [m]), b.hash, cpu);
  }

  lemma EmptyStoreOk()
    ensures StoreOk(Store(map[], []))
  {
  }

  lemma MovedHashes(moves: seq<BlockMove>)
    ensures forall h :: h in HashesOf(moves) ==> exists m :: m in moves && m.hash == h
  {
    forall h | h in HashesOf(moves)
      ensures exists m :: m in moves && m.hash == h
    {
      var i :| 0 <= i < |moves| && HashesOf(moves)[i] == h;
      assert moves[i] in moves;
    }
  }

  lemma MovedBlockLeavesIff(s: Store, t: Store, n: NodeId, m: BlockMove)
    requires Possible(s, m) && OnNode(m.src, n) && !OnNode(m.dst, n)
    requires m.hash in t.blocks && t.blocks[m.hash] == CopiesAfter(s, m)
    ensures HeldOn(t, m.hash, n) <==> !HeldOnce(s, m.hash, n)
  {
    hide OnNode;
    if HeldOnce(s, m.hash, n) {
      forall l | Holds(t, m.hash, l)
        ensures !OnNode(l, n)
      {
        assert l == m.dst || (Holds(s, m.hash, l) && l != m.src);
      }
    } else {
      var l, k :| Holds(s, m.hash, l) && OnNode(l, n) && Holds(s, m.hash, k) && OnNode(k, n) && l != k;
      var other := if l == m.src then k else l;
      assert Holds(t, m.hash, other);
    }
  }

  // ---------------------------------------------------------------- what is kept

  function TotalCost(moves: seq<BlockMove>): real {
    if moves == [] then 0.0 else TotalCost(moves[..|moves| - 1]) + moves[|moves| - 1].cost
  }

  function TotalPriority(moves: seq<BlockMove>): real {
    if moves == [] then 0.0 else TotalPriority(moves[..|moves| - 1]) + moves[|moves| - 1].priority
  }

  lemma {:induction false} MovesTotals(offers: seq<Offer>, deadline: Option<real>)
    ensures TotalCost(MovesOf(offers, deadline)) == Spent(offers, deadline)
    ensures TotalPriority(MovesOf(offers, deadline)) == ChosenTotal(Priorities(offers), Kept(offers, deadline))
  {
    hide Kept, Costs, Priorities, Spent, MovesOf, DropsOf;
    var n := |offers| - 1;
    if offers != [] {
      MovesTotals(offers[..n], deadline);
      assert offers[..n + 1] == offers;
      OneMoreOffer(offers, deadline, n);
      LastApart(offers, deadline);
      TotalAppend(Priorities(offers[..n]), Kept(offers[..n], deadline), offers[n].priority, Kept(offers, deadline)[n]);
      TotalsAppend(MovesOf(offers[..n], deadline), MovesOf(offers, deadline));
    } else {
      BeforeAny(offers, [], [], deadline);
      NoTotals(offers, deadline);
    }
  }

  lemma NoTotals(offers: seq<Offer>, deadline: Option<real>)
    requires offers == []
    ensures ChosenTotal(Priorities(offers), Kept(offers, deadline)) == 0.0
  {
  }

  lemma TotalsAppend(moves: seq<BlockMove>, more: seq<BlockMove>)
    requires (|more| > 0 && more[..|more| - 1] == moves) || more == moves
    ensures TotalCost(more) == TotalCost(moves) + if more == moves then 0.0 else more[|more| - 1].cost
    ensures TotalPriority(more) == TotalPriority(moves) + if more == moves then 0.0 else more[|more| - 1].priority
  {
  }

  /** The time budget holds for the plan as a whole, and adding any block that was dropped for its cost would break it. */
  lemma PlanFillsDeadline(s: Store, n: NodeId, ids: seq<int>, targets: seq<Target>, index: map<int, seq<Location>>,
                          minReuse: nat, deadline: Option<real>, links: Links)
    requires RttsNonNegative(links)
    ensures var moves := PlanFor(s, n, ids, targets, index, minReuse, deadline, links).moves;
      var offers := Offers(Ranked(s, n, ids, minReuse), targets, index, n, links);
      && (moves != [] && deadline.Some? ==> TotalCost(moves) <= deadline.value)
      && forall i :: 0 <= i < |offers| && offers[i].dst.Some? && !Kept(offers, deadline)[i] ==>
        deadline.Some? && TotalCost(moves) + offers[i].cost > deadline.value
  {
    hide Kept, Offers, Sort, Appraised, MovesOf, DropsOf, Spent, MoveCost;
    var ranked := Ranked(s, n, ids, minReuse);
    var offers := Offers(ranked, targets, index, n, links);
    forall i | 0 <= i < |offers|
      ensures offers[i].cost >= 0.0
    {
      OfferAt(ranked, targets, index, n, links, i);
      if offers[i].dst.Some? {
        MoveCostNonNegative(links, ranked[i].block.byteSize, offers[i].src, offers[i].dst.value);
      }
    }
    GreedyIsMaximal(offers, deadline);
    MovesTotals(offers, deadline);
    SomethingKept(offers, deadline);
  }

  lemma {:induction false} SomethingKept(offers: seq<Offer>, deadline: Option<real>)
    ensures MovesOf(offers, deadline) != [] ==> true in Kept(offers, deadline)
  {
    if offers != [] {
      SomethingKept(offers[..|offers| - 1], deadline);
    }
  }

  ghost predicate PrefillTimesNonNegative(s: Store) {
    forall h, l :: Holds(s, h, l) ==> s.blocks[h][l].prefillTimeMs >= 0.0
  }

  /** When all moves cost the same, no set of blocks that meets the deadline is worth more than the set moved. */
  lemma PlanIsMostValuable(s: Store, n: NodeId, ids: seq<int>, targets: seq<Target>, index: map<int, seq<Location>>,
                           minReuse: nat, deadline: Option<real>, links: Links, c: real, other: seq<bool>)
    requires StoreOk(s) && PrefillTimesNonNegative(s) && targets != [] && c >= 0.0
    requires AllCost(Offers(Ranked(s, n, ids, minReuse), targets, index, n, links), c)
    requires var offers := Offers(Ranked(s, n, ids, minReuse), targets, index, n, links);
      |other| == |offers| && Within(ChosenTotal(Costs(offers), other), deadline)
    ensures var offers := Offers(Ranked(s, n, ids, minReuse), targets, index, n, links);
      ChosenTotal(Priorities(offers), other)
        <= TotalPriority(PlanFor(s, n, ids, targets, index, minReuse, deadline, links).moves)
  {
    hide Kept, Offers, Appraised, MovesOf, DropsOf, Spent, MoveCost, StoreOk, Costs, Priorities, AllCost, Ranked, Worth;
    var ranked := Ranked(s, n, ids, minReuse);
    var offers := Offers(ranked, targets, index, n, links);
    RankedDearestFirst(s, n, ids, minReuse);
    forall i | 0 <= i < |offers|
      ensures offers[i].dst.Some? && offers[i].priority == ranked[i].priority
    {
      OfferAt(ranked, targets, index, n, links, i);
    }
    GreedyIsOptimal(offers, deadline, c, other);
    MovesTotals(offers, deadline);
  }

  lemma RankedDearestFirst(s: Store, n: NodeId, ids: seq<int>, minReuse: nat)
    requires StoreOk(s) && PrefillTimesNonNegative(s)
    ensures var r := Ranked(s, n, ids, minReuse);
      && (forall i :: 0 <= i < |r| ==> r[i].priority >= 0.0)
      && forall i, j :: 0 <= i < j < |r| ==> r[i].priority >= r[j].priority
  {
    hide StoreOk, Appraised, Sort, Worth, LoadedBlock;
    var a, r := Appraised(s, n, ids, minReuse), Ranked(s, n, ids, minReuse);
    AppraisedAreLoaded(s, n, ids, minReuse);
    MembersOfEqualMultisets(a, r);
    assert TotalPreorder(Dearer);
    SortSorts(a, Dearer);
    forall i | 0 <= i < |r|
      ensures r[i].priority >= 0.0
    {
      assert r[i] in a;
      LoadedCostsTime(s, n, r[i].block.hash);
      WorthNonNegative(r[i].block, minReuse);
    }
    forall i, j | 0 <= i < j < |r|
      ensures r[i].priority >= r[j].priority
    {
      assert Dearer(r[i], r[j]);
    }
  }

  lemma LoadedCostsTime(s: Store, n: NodeId, hash: int)
    requires PrefillTimesNonNegative(s) && LoadedBlock(s, n, hash).Some?
    ensures LoadedBlock(s, n, hash).value.prefillTimeMs >= 0.0
  {
  }

  lemma WorthNonNegative(b: KVBlock, minReuse: nat)
    requires b.prefillTimeMs >= 0.0
    ensures Worth(b, minReuse) >= 0.0
  {
  }
}
