/** Moving a leaving node's KV blocks to other nodes (policies/migration.py, PriorityMigration; backends/mock_storage.py,
    estimate_move_cost). */
module Migration {
  import opened Types
  import opened Sorting
  import opened KvStore
  import opened MigrationChoice

  datatype BlockMove = BlockMove(hash: int, src: Location, dst: Location, priority: real, cost: real)

  datatype MigrationPlan = MigrationPlan(moves: seq<BlockMove>, drops: seq<int>)

  // ---------------------------------------------------------------- cost of a move

  datatype Links = Links(
    bandwidth: real, nodeBandwidth: map<NodeId, real>, nodeRtt: map<NodeId, real>, localRtt: real, remoteRtt: real)

  /** The part of a location before its first colon. */
  function NodeOf(l: Location): NodeId {
    if l == "" || l[0] == ':' then "" else [l[0]] + NodeOf(l[1..])
  }

  function BandwidthOf(k: Links, n: NodeId): real {
    if n in k.nodeBandwidth then k.nodeBandwidth[n] else k.bandwidth
  }

  function Slower(a: real, b: real): real {
    if a <= b then a else b
  }

  function RttOf(k: Links, n: NodeId): real {
    if n in k.nodeRtt then k.nodeRtt[n] else k.remoteRtt
  }

  /** The slower of the two links carries the bytes; a hop to another node adds its round trip. */
  function MoveCost(k: Links, byteSize: nat, src: Location, dst: Location): real {
    var width := Slower(BandwidthOf(k, NodeOf(src)), BandwidthOf(k, NodeOf(dst)));
    var transfer := byteSize as real / (if width > 1.0 then width else 1.0) * 0.001;
    transfer + if NodeOf(src) == NodeOf(dst) then k.localRtt else RttOf(k, NodeOf(dst))
  }

  ghost predicate RttsNonNegative(k: Links) {
    k.localRtt >= 0.0 && k.remoteRtt >= 0.0 && forall n :: n in k.nodeRtt ==> k.nodeRtt[n] >= 0.0
  }

  lemma MoveCostNonNegative(k: Links, byteSize: nat, src: Location, dst: Location)
    requires RttsNonNegative(k)
    ensures MoveCost(k, byteSize, src, dst) >= 0.0
  {
  }

  // ---------------------------------------------------------------- what is on the leaving node

  predicate OnNode(l: Location, n: NodeId) {
    n + ":" <= l
  }

  ghost predicate HeldOn(s: Store, hash: int, n: NodeId) {
    exists l :: Holds(s, hash, l) && OnNode(l, n)
  }

  ghost predicate HeldOnce(s: Store, hash: int, n: NodeId) {
    forall l, k :: Holds(s, hash, l) && OnNode(l, n) && Holds(s, hash, k) && OnNode(k, n) ==> l == k
  }

  function LoadedBlock(s: Store, n: NodeId, hash: int): Option<KVBlock> {
    if Holds(s, hash, n + ":gpu") then Some(s.blocks[hash][n + ":gpu"])
    else if Holds(s, hash, n + ":cpu") then Some(s.blocks[hash][n + ":cpu"])
    else if Holds(s, hash, n + ":disk") then Some(s.blocks[hash][n + ":disk"])
    else None
  }

  /** The first listed location on the node. */
  function FirstOnNode(locations: seq<Location>, n: NodeId): Option<Location> {
    if locations == [] then None
    else if OnNode(locations[0], n) then Some(locations[0])
    else FirstOnNode(locations[1..], n)
  }

  function SourceOf(index: map<int, seq<Location>>, hash: int, n: NodeId): Location {
    var found := if hash in index then FirstOnNode(index[hash], n) else None;
    if found.Some? then found.value else n + ":gpu"
  }

  lemma {:induction false} FirstOnNodeIsOne(locations: seq<Location>, n: NodeId)
    ensures var f := FirstOnNode(locations, n);
      && (f.Some? ==> f.value in locations && OnNode(f.value, n))
      && (f.None? ==> forall l :: l in locations ==> !OnNode(l, n))
  {
    if locations != [] {
      FirstOnNodeIsOne(locations[1..], n);
      assert forall l :: l in locations ==> l == locations[0] || l in locations[1..];
    }
  }

  // ---------------------------------------------------------------- appraisal

  datatype Valued = Valued(block: KVBlock, priority: real)

  function Worth(b: KVBlock, minReuse: nat): real {
    (if b.reuseCount > minReuse then b.reuseCount else minReuse) as real * b.prefillTimeMs
  }

  /** The blocks that load, with their priorities, in the order asked for. */
  function Appraised(s: Store, n: NodeId, ids: seq<int>, minReuse: nat): seq<Valued> {
    if ids == [] then []
    else
      var b := LoadedBlock(s, n, ids[|ids| - 1]);
      Appraised(s, n, ids[..|ids| - 1], minReuse) + if b.Some? then [Valued(b.value, Worth(b.value, minReuse))] else []
  }

  function Missing(s: Store, n: NodeId, ids: seq<int>): seq<int> {
    if ids == [] then []
    else
      Missing(s, n, ids[..|ids| - 1]) + if LoadedBlock(s, n, ids[|ids| - 1]).None? then [ids[|ids| - 1]] else []
  }

  predicate Dearer(v: Valued, w: Valued) {
    v.priority >= w.priority
  }

  function SizesOf(vs: seq<Valued>): (r: seq<nat>)
    ensures |r| == |vs|
  {
    seq(|vs|, i requires 0 <= i < |vs| => if vs[i].block.byteSize > 1 then vs[i].block.byteSize else 1)
  }

  /** The target of the k-th block in order of value. */
  function Choice(targets: seq<Target>, sizes: seq<nat>, k: nat): Option<Location>
    requires k <= |sizes|
  {
    if targets == [] then None
    else Some(targets[Best(targets, AssignedAfter(targets, sizes, k), |targets|)].nodeId + ":gpu")
  }

  function OfferFor(v: Valued, dst: Option<Location>, src: Location, links: Links): Offer {
    Offer(v.block.hash, v.priority, src, dst, if dst.Some? then MoveCost(links, v.block.byteSize, src, dst.value) else 0.0)
  }

  function Offers(vs: seq<Valued>, targets: seq<Target>, index: map<int, seq<Location>>, n: NodeId, links: Links): (r: seq<Offer>)
    ensures |r| == |vs|
  {
    seq(|vs|, k requires 0 <= k < |vs| =>
      OfferFor(vs[k], Choice(targets, SizesOf(vs), k), SourceOf(index, vs[k].block.hash, n), links))
  }

  /** Kept offers become moves, the others drops, in order. */
  function MovesOf(offers: seq<Offer>, deadline: Option<real>): seq<BlockMove> {
    if offers == [] then []
    else
      var o := offers[|offers| - 1];
      MovesOf(offers[..|offers| - 1], deadline)
      + if o.dst.Some? && Kept(offers, deadline)[|offers| - 1] then [BlockMove(o.hash, o.src, o.dst.value, o.priority, o.cost)] else []
  }

  function DropsOf(offers: seq<Offer>, deadline: Option<real>): seq<int> {
    if offers == [] then []
    else
      DropsOf(offers[..|offers| - 1], deadline)
      + if Kept(offers, deadline)[|offers| - 1] then [] else [offers[|offers| - 1].hash]
  }

  function HashesOf(moves: seq<BlockMove>): (r: seq<int>)
    ensures |r| == |moves|
  {
    seq(|moves|, i requires 0 <= i < |moves| => moves[i].hash)
  }

  // ---------------------------------------------------------------- decide

  class PriorityMigration {
    const deadline: Option<real>
    const minReuse: nat
    const accepts: NodeState -> bool
    const links: Links

    constructor (deadline: Option<real>, minReuseCount: int, accepts: NodeState -> bool, links: Links)
      ensures this.deadline == deadline && this.minReuse == (if minReuseCount > 0 then minReuseCount else 0)
      ensures this.accepts == accepts && this.links == links
    {
      this.deadline := deadline;
      this.minReuse := if minReuseCount > 0 then minReuseCount else 0;
      this.accepts := accepts;
      this.links := links;
    }

    /** The alive nodes that pass the filter, in the order given. */
    method SelectTargets(available: seq<(NodeId, NodeState)>) returns (targets: seq<Target>)
      ensures targets == TargetsOf(available, accepts)
    {
      targets := [];
      for i := 0 to |available|
        invariant targets == TargetsOf(available[..i], accepts)
      {
        assert available[..i + 1][..i] == available[..i];
        var (id, node) := available[i];
        if node.alive && accepts(node) {
          targets := targets + [Target(id, node.load, node.memoryFree)];
        }
      }
      assert available[..|available|] == available;
    }

    /** _assign_target: the best target for a block, and the ledger with the block charged to it. */
    method AssignTarget(size: nat, targets: seq<Target>, given: Assigned) returns (dst: Option<Location>, charged: Assigned)
      ensures targets == [] ==> dst == None && charged == given
      ensures targets != [] ==>
        && dst == Some(targets[Best(targets, given, |targets|)].nodeId + ":gpu")
        && charged == Charged(targets, given, size)
    {
      if targets == [] {
        return None, given;
      }
      var best := 0;
      for i := 1 to |targets|
        invariant best < i && best == Best(targets, given, i)
      {
        if Score(targets[i], given) < Score(targets[best], given) {
          best := i;
        }
      }
      dst := Some(targets[best].nodeId + ":gpu");
      charged := given[targets[best].nodeId := BytesOf(given, targets[best].nodeId) + size];
    }

    method LoadBlock(storage: MockKVStore, hash: int, n: NodeId) returns (b: Option<KVBlock>)
      ensures b == LoadedBlock(storage.Contents(), n, hash)
    {
      b := storage.Load(hash, n + ":gpu");
      if b.None? {
        b := storage.Load(hash, n + ":cpu");
        if b.None? {
          b := storage.Load(hash, n + ":disk");
        }
      }
    }

    /** The first loop of decide. */
    method Appraise(storage: MockKVStore, n: NodeId, ids: seq<int>) returns (valued: seq<Valued>, missing: seq<int>)
      ensures valued == Appraised(storage.Contents(), n, ids, minReuse) && missing == Missing(storage.Contents(), n, ids)
    {
      valued, missing := [], [];
      for i := 0 to |ids|
        invariant valued == Appraised(storage.Contents(), n, ids[..i], minReuse)
        invariant missing == Missing(storage.Contents(), n, ids[..i])
      {
        assert ids[..i + 1][..i] == ids[..i];
        var b := LoadBlock(storage, ids[i], n);
        if b.None? {
          missing := missing + [ids[i]];
        } else {
          valued := valued + [Valued(b.value, Worth(b.value, minReuse))];
        }
      }
      assert ids[..|ids|] == ids;
    }

    /** decide, with the index it worked from: that lists locations in an order of its own, and what is proved holds for
        whichever it was. */
    method Decide(n: NodeId, ids: seq<int>, storage: MockKVStore, available: seq<(NodeId, NodeState)>)
      returns (plan: MigrationPlan, index: map<int, seq<Location>>)
      requires StoreOk(storage.Contents())
      ensures IndexOf(index, storage.Contents())
      ensures plan == PlanFor(storage.Contents(), n, ids, TargetsOf(available, accepts), index, minReuse, deadline, links)
    {
      hide StoreOk, IndexOf, Charged, Kept, Sort, Appraised, Missing, MovesOf, DropsOf, Spent, Offers, SizesOf, Choice, MoveCost,
        AssignedAfter, TargetsOf, SourceOf;
      index := storage.GetIndex();
      if ids == [] {
        EmptyPlan(storage.Contents(), n, TargetsOf(available, accepts), index, minReuse, deadline, links);
        return MigrationPlan([], []), index;
      }
      var valued, missing := Appraise(storage, n, ids);
      valued := Sort(valued, Dearer);
      var targets := SelectTargets(available);
      var budget := deadline;
      var given: Assigned := map[];
      var moves: seq<BlockMove> := [];
      var drops := missing;
      ghost var offers := Offers(valued, targets, index, n, links);
      ghost var sizes := SizesOf(valued);
      BeforeAny(offers, targets, sizes, deadline);
      for i := 0 to |valued|
        invariant targets != [] ==> given == AssignedAfter(targets, sizes, i)
        invariant moves == MovesOf(offers[..i], deadline) && drops == missing + DropsOf(offers[..i], deadline)
        invariant budget == Left(deadline, Spent(offers[..i], deadline))
      {
        var v := valued[i];
        var size := if v.block.byteSize > 1 then v.block.byteSize else 1;
        var dst;
        dst, given := AssignTarget(size, targets, given);
        OfferAt(valued, targets, index, n, links, i);
        OneMoreOffer(offers, deadline, i);
        if dst.None? {
          drops := drops + [v.block.hash];
        } else {
          var src := SourceOf(index, v.block.hash, n);
          var cost := MoveCost(links, v.block.byteSize, src, dst.value);
          if budget.None? || cost <= budget.value {
            moves := moves + [BlockMove(v.block.hash, src, dst.value, v.priority, cost)];
            budget := if budget.None? then None else Some(budget.value - cost);
          } else {
            drops := drops + [v.block.hash];
          }
        }
      }
      assert offers[..|offers|] == offers;
      plan := MigrationPlan(moves, drops);
    }

    /** execute: moves one by one, a failed move becomes a drop; then every dropped block is evicted everywhere. */
    method Execute(plan: MigrationPlan, storage: MockKVStore) returns (drops: seq<int>)
      requires StoreOk(storage.Contents())
      modifies storage
      ensures StoreOk(storage.Contents())
      ensures drops == plan.drops + FailedMoves(old(storage.Contents()), plan.moves)
      ensures storage.Contents() == EvictedEach(MovedEach(old(storage.Contents()), plan.moves), drops)
    {
      hide StoreOk, Moved, Evicted;
      drops := plan.drops;
      ghost var s := storage.Contents();
      for i := 0 to |plan.moves|
        invariant StoreOk(storage.Contents())
        invariant storage.Contents() == MovedEach(s, plan.moves[..i])
        invariant drops == plan.drops + FailedMoves(s, plan.moves[..i])
      {
        var move := plan.moves[i];
        assert plan.moves[..i + 1][..i] == plan.moves[..i];
        OperationsKeepStoreOk(storage.Contents(), KVBlock(0, 0, None, None, 0, 0.0), move.hash, move.src, move.dst);
        if move.src == "" {
          drops := drops + [move.hash];
        } else {
          var outcome := storage.Move(move.hash, move.src, move.dst);
          if outcome.Failure? {
            drops := drops + [move.hash];
          }
        }
      }
      assert plan.moves[..|plan.moves|] == plan.moves;
      EvictAll(drops, storage);
    }

    /** The second loop of execute: dropped blocks go from every node. */
    method EvictAll(drops: seq<int>, storage: MockKVStore)
      requires StoreOk(storage.Contents())
      modifies storage
      ensures StoreOk(storage.Contents())
      ensures storage.Contents() == EvictedEach(old(storage.Contents()), drops)
    {
      hide Evicted, StoreOk;
      for i := 0 to |drops|
        invariant StoreOk(storage.Contents())
        invariant storage.Contents() == EvictedEach(old(storage.Contents()), drops[..i])
      {
        assert drops[..i + 1][..i] == drops[..i];
        storage.Evict(drops[i], "*");
      }
      assert drops[..|drops|] == drops;
    }
  }

  function TargetsOf(available: seq<(NodeId, NodeState)>, accepts: NodeState -> bool): seq<Target> {
    if available == [] then []
    else
      var (id, node) := available[|available| - 1];
      TargetsOf(available[..|available| - 1], accepts)
      + if node.alive && accepts(node) then [Target(id, node.load, node.memoryFree)] else []
  }

  function Ranked(s: Store, n: NodeId, ids: seq<int>, minReuse: nat): seq<Valued> {
    Sort(Appraised(s, n, ids, minReuse), Dearer)
  }

  function PlanFor(s: Store, n: NodeId, ids: seq<int>, targets: seq<Target>, index: map<int, seq<Location>>, minReuse: nat,
                   deadline: Option<real>, links: Links): MigrationPlan
  {
    var offers := Offers(Ranked(s, n, ids, minReuse), targets, index, n, links);
    MigrationPlan(MovesOf(offers, deadline), Missing(s, n, ids) + DropsOf(offers, deadline))
  }

  function Left(deadline: Option<real>, spent: real): Option<real> {
    if deadline.None? then None else Some(deadline.value - spent)
  }

  /** One turn of the move loop. */
  function MoveOne(s: Store, move: BlockMove): Result<Store, StoreError> {
    if move.src == "" then Failure(NotAtSource(move.hash, "")) else Moved(s, move.hash, move.src, move.dst)
  }

  function MovedEach(s: Store, moves: seq<BlockMove>): Store {
    if moves == [] then s
    else
      var before := MovedEach(s, moves[..|moves| - 1]);
      match MoveOne(before, moves[|moves| - 1])
      case Success(t) => t
      case Failure(_) => before
  }

  function FailedMoves(s: Store, moves: seq<BlockMove>): seq<int> {
    if moves == [] then []
    else
      var n := |moves| - 1;
      FailedMoves(s, moves[..n])
      + if MoveOne(MovedEach(s, moves[..n]), moves[n]).Failure? then [moves[n].hash] else []
  }

  function EvictedEach(s: Store, hashes: seq<int>): Store {
    if hashes == [] then s else Evicted(EvictedEach(s, hashes[..|hashes| - 1]), hashes[|hashes| - 1], "*")
  }

  // ---------------------------------------------------------------- loop steps

  lemma EmptyPlan(s: Store, n: NodeId, targets: seq<Target>, index: map<int, seq<Location>>, minReuse: nat,
                  deadline: Option<real>, links: Links)
    ensures PlanFor(s, n, [], targets, index, minReuse, deadline, links) == MigrationPlan([], [])
  {
  }

  lemma BeforeAny(offers: seq<Offer>, targets: seq<Target>, sizes: seq<nat>, deadline: Option<real>)
    ensures offers[..0] == [] && Spent([], deadline) == 0.0 && MovesOf([], deadline) == [] && DropsOf([], deadline) == []
    ensures targets != [] ==> AssignedAfter(targets, sizes, 0) == map[]
  {
  }

  lemma OfferAt(vs: seq<Valued>, targets: seq<Target>, index: map<int, seq<Location>>, n: NodeId, links: Links, i: nat)
    requires i < |vs|
    ensures var dst := Choice(targets, SizesOf(vs), i);
      Offers(vs, targets, index, n, links)[i] == OfferFor(vs[i], dst, SourceOf(index, vs[i].block.hash, n), links)
    ensures targets == [] ==> Choice(targets, SizesOf(vs), i) == None
    ensures targets != [] ==>
      var given := AssignedAfter(targets, SizesOf(vs), i);
      && Choice(targets, SizesOf(vs), i) == Some(targets[Best(targets, given, |targets|)].nodeId + ":gpu")
      && AssignedAfter(targets, SizesOf(vs), i + 1)
         == Charged(targets, given, if vs[i].block.byteSize > 1 then vs[i].block.byteSize else 1)
  {
  }

  lemma OneMoreOffer(offers: seq<Offer>, deadline: Option<real>, i: nat)
    requires i < |offers|
    ensures var o := offers[i];
      var keep := o.dst.Some? && Within(Spent(offers[..i], deadline) + o.cost, deadline);
      && MovesOf(offers[..i + 1], deadline)
         == MovesOf(offers[..i], deadline) + (if keep then [BlockMove(o.hash, o.src, o.dst.value, o.priority, o.cost)] else [])
      && DropsOf(offers[..i + 1], deadline) == DropsOf(offers[..i], deadline) + (if keep then [] else [o.hash])
      && Spent(offers[..i + 1], deadline) == Spent(offers[..i], deadline) + (if keep then o.cost else 0.0)
  {
    hide Kept, Spent, Costs, Priorities;
    assert offers[..i + 1][..i] == offers[..i];
    LastApart(offers[..i + 1], deadline);
    SpentStep(offers[..i + 1], deadline);
  }
}
