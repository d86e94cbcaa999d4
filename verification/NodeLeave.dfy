/** What happens to the KV blocks when a node leaves (core/task_scheduler.py, the migration part of _on_node_left). */
module NodeLeave {
  import opened Types
  import opened KvStore
  import opened MigrationChoice
  import opened Migration
  import opened MigrationEffect

  /** The listed hashes with a copy on the node, in order. */
  function HeldIds(s: Store, hashes: seq<int>, n: NodeId): (r: seq<int>)
    ensures forall h :: h in r ==> h in hashes
  {
    if hashes == [] then []
    else
      var k := |hashes| - 1;
      HeldIds(s, hashes[..k], n) + if hashes[k] in s.blocks && AnyOnNode(s.blocks[hashes[k]], n) then [hashes[k]] else []
  }

  predicate AnyOnNode(copies: map<Location, KVBlock>, n: NodeId) {
    exists l :: l in copies && OnNode(l, n)
  }

  lemma {:induction false} HeldIdsAreHeld(s: Store, hashes: seq<int>, n: NodeId)
    requires NoRepeats(hashes)
    ensures NoRepeats(HeldIds(s, hashes, n))
    ensures forall h :: h in HeldIds(s, hashes, n) <==> h in hashes && HeldOn(s, h, n)
  {
    hide OnNode;
    if hashes != [] {
      var k := |hashes| - 1;
      HeldIdsAreHeld(s, hashes[..k], n);
      assert hashes == hashes[..k] + [hashes[k]];
      assert hashes[k] !in hashes[..k];
      assert hashes[k] in s.blocks && AnyOnNode(s.blocks[hashes[k]], n) <==> HeldOn(s, hashes[k], n) by {
        if HeldOn(s, hashes[k], n) {
          var l :| Holds(s, hashes[k], l) && OnNode(l, n);
          assert l in s.blocks[hashes[k]];
        } else {
          assert forall l :: hashes[k] in s.blocks && l in s.blocks[hashes[k]] ==> Holds(s, hashes[k], l);
        }
      }
    }
  }

  /** Everyone alive but the leaving node. */
  function Others(nodes: seq<(NodeId, NodeState)>, n: NodeId): (r: seq<(NodeId, NodeState)>)
    ensures forall p :: p in r <==> p in nodes && p.0 != n && p.1.alive
  {
    if nodes == [] then []
    else
      var k := |nodes| - 1;
      assert nodes == nodes[..k] + [nodes[k]];
      Others(nodes[..k], n) + if nodes[k].0 != n && nodes[k].1.alive then [nodes[k]] else []
  }

  ghost predicate Named(nodes: seq<(NodeId, NodeState)>, id: NodeId) {
    exists i :: 0 <= i < |nodes| && nodes[i].0 == id
  }

  lemma {:induction false} TargetsComeFrom(available: seq<(NodeId, NodeState)>, accepts: NodeState -> bool)
    ensures forall t :: t in TargetsOf(available, accepts) ==> Named(available, t.nodeId)
  {
    if available != [] {
      var k := |available| - 1;
      TargetsComeFrom(available[..k], accepts);
      forall t | t in TargetsOf(available, accepts)
        ensures Named(available, t.nodeId)
      {
        if t in TargetsOf(available[..k], accepts) {
          var i :| 0 <= i < k && available[..k][i].0 == t.nodeId;
          assert available[i].0 == t.nodeId;
        } else {
          assert available[k].0 == t.nodeId;
        }
      }
    }
  }

  ghost predicate PlainIds(n: NodeId, nodes: seq<(NodeId, NodeState)>) {
    NoColon(n) && forall p :: p in nodes ==> NoColon(p.0)
  }

  predicate HasStage(plan: PipelinePlan, n: NodeId)
    ensures HasStage(plan, n) <==> exists p :: p in plan.placements && p.nodeId == n
  {
    exists i :: 0 <= i < |plan.placements| && plan.placements[i].nodeId == n
  }

  /** Every block of the node is moved or dropped, and the deadline holds. With colon-free ids the moved blocks are at their
      destinations, the dropped ones gone, all others untouched, and the node holds nothing exactly when no moved block had
      two copies on it. */
  ghost predicate MigratedAway(policy: PriorityMigration, s: Store, t: Store, n: NodeId, nodes: seq<(NodeId, NodeState)>,
                               plan: MigrationPlan)
  {
    && StoreOk(t)
    && (forall h :: HeldOn(s, h, n) <==> h in HashesOf(plan.moves) || h in plan.drops)
    && DistinctMoves(plan.moves) && NoRepeats(plan.drops) && (forall m :: m in plan.moves ==> m.hash !in plan.drops)
    && (RttsNonNegative(policy.links) && plan.moves != [] && policy.deadline.Some? ==>
         TotalCost(plan.moves) <= policy.deadline.value)
    && (PlainIds(n, nodes) ==> CleanedUp(s, t, n, plan))
  }

  /** All moves were possible, the store is as planned, and the node is empty exactly when no moved block had a second copy. */
  ghost predicate CleanedUp(s: Store, t: Store, n: NodeId, plan: MigrationPlan) {
    && (forall m :: m in plan.moves ==> Possible(s, m) && OnNode(m.src, n))
    && Migrated(s, t, plan)
    && ((forall h :: !HeldOn(t, h, n)) <==> forall m :: m in plan.moves ==> HeldOnce(s, m.hash, n))
  }

  lemma AllHeldIds(s: Store, n: NodeId)
    requires StoreOk(s)
    ensures NoRepeats(HeldIds(s, s.order, n))
    ensures forall h :: h in HeldIds(s, s.order, n) <==> HeldOn(s, h, n)
  {
    hide OnNode;
    HeldIdsAreHeld(s, s.order, n);
  }

  lemma OthersElsewhere(remaining: seq<(NodeId, NodeState)>, accepts: NodeState -> bool, n: NodeId)
    requires NoColon(n) && forall p :: p in remaining ==> NoColon(p.0) && p.0 != n
    ensures TargetsElsewhere(TargetsOf(remaining, accepts), n)
  {
    hide NoColon;
    var targets := TargetsOf(remaining, accepts);
    TargetsComeFrom(remaining, accepts);
    forall i | 0 <= i < |targets|
      ensures NoColon(targets[i].nodeId) && targets[i].nodeId != n
    {
      assert Named(remaining, targets[i].nodeId);
      var k :| 0 <= k < |remaining| && remaining[k].0 == targets[i].nodeId;
      assert remaining[k] in remaining;
    }
    ColonFreeTargetsElsewhere(targets, n);
  }

  /** The decision for these blocks of the node among these nodes. */
  function Decision(policy: PriorityMigration, s: Store, n: NodeId, nodes: seq<(NodeId, NodeState)>, ids: seq<int>,
                    index: map<int, seq<Location>>): MigrationPlan
  {
    PlanFor(s, n, ids, TargetsOf(Others(nodes, n), policy.accepts), index, policy.minReuse, policy.deadline, policy.links)
  }

  lemma DecisionMeetsDeadline(policy: PriorityMigration, s: Store, n: NodeId, nodes: seq<(NodeId, NodeState)>, ids: seq<int>,
                              index: map<int, seq<Location>>)
    requires RttsNonNegative(policy.links)
    ensures var moves := Decision(policy, s, n, nodes, ids, index).moves;
      moves != [] && policy.deadline.Some? ==> TotalCost(moves) <= policy.deadline.value
  {
    hide PlanFor;
    PlanFillsDeadline(s, n, ids, TargetsOf(Others(nodes, n), policy.accepts), index, policy.minReuse, policy.deadline, policy.links);
  }

  lemma PlainDecisionMigrates(policy: PriorityMigration, s: Store, n: NodeId, nodes: seq<(NodeId, NodeState)>, ids: seq<int>,
                              index: map<int, seq<Location>>)
    requires StoreOk(s) && IndexOf(index, s) && NoRepeats(ids) && (forall h :: h in ids <==> HeldOn(s, h, n))
    requires PlainIds(n, nodes)
    ensures var plan := Decision(policy, s, n, nodes, ids, index);
      && FailedMoves(s, plan.moves) == []
      && CleanedUp(s, EvictedEach(MovedEach(s, plan.moves), plan.drops), n, plan)
  {
    hide StoreOk, IndexOf, PlanFor, Migrated, EvictedEach, MovedEach, FailedMoves, HashesOf, OnNode, TargetsOf, Possible,
      HeldOn, HeldOnce, NoRepeats, NoColon, DistinctMoves;
    var remaining := Others(nodes, n);
    var targets := TargetsOf(remaining, policy.accepts);
    OthersElsewhere(remaining, policy.accepts, n);
    LeavingNodeIsMigrated(s, n, ids, targets, index, policy.minReuse, policy.deadline, policy.links);
    NodeIsEmptyIff(s, n, ids, targets, index, policy.minReuse, policy.deadline, policy.links);
  }

  /** Carrying out what was decided for all blocks of the node. */
  lemma DecisionMigrates(policy: PriorityMigration, s: Store, t: Store, n: NodeId, nodes: seq<(NodeId, NodeState)>, ids: seq<int>,
                         index: map<int, seq<Location>>, plan: MigrationPlan)
    requires StoreOk(s) && StoreOk(t) && IndexOf(index, s) && NoRepeats(ids) && forall h :: h in ids <==> HeldOn(s, h, n)
    requires plan == Decision(policy, s, n, nodes, ids, index)
    requires t == EvictedEach(MovedEach(s, plan.moves), plan.drops + FailedMoves(s, plan.moves))
    ensures MigratedAway(policy, s, t, n, nodes, plan)
  {
    hide StoreOk, IndexOf, PlanFor, EvictedEach, MovedEach, FailedMoves, HashesOf, TargetsOf, HeldOn, NoRepeats, DistinctMoves,
      CleanedUp, Within, RttsNonNegative, PlainIds, TotalCost;
    PlanPartitions(s, n, ids, TargetsOf(Others(nodes, n), policy.accepts), index, policy.minReuse, policy.deadline, policy.links);
    DistinctFromPartition(plan.moves, plan.drops, ids);
    if RttsNonNegative(policy.links) {
      DecisionMeetsDeadline(policy, s, n, nodes, ids, index);
    }
    if PlainIds(n, nodes) {
      PlainDecisionMigrates(policy, s, n, nodes, ids, index);
      assert plan.drops + [] == plan.drops;
    }
  }

  /** Collect the node's blocks, decide, execute. */
  method MigrateAway(policy: PriorityMigration, storage: MockKVStore, n: NodeId, nodes: seq<(NodeId, NodeState)>)
    returns (plan: MigrationPlan)
    requires StoreOk(storage.Contents())
    modifies storage
    ensures MigratedAway(policy, old(storage.Contents()), storage.Contents(), n, nodes, plan)
  {
    hide MigratedAway, StoreOk, IndexOf, PlanFor, EvictedEach, MovedEach, FailedMoves, OnNode, TargetsOf, HeldOn, NoRepeats;
    ghost var s := storage.Contents();
    var ids := [];
    for i := 0 to |storage.prefixOrder|
      invariant ids == HeldIds(s, s.order[..i], n)
    {
      assert s.order[..i + 1][..i] == s.order[..i];
      var h := storage.prefixOrder[i];
      if h in storage.blocks && AnyOnNode(storage.blocks[h], n) {
        ids := ids + [h];
      }
    }
    assert s.order[..|s.order|] == s.order;
    AllHeldIds(s, n);
    var remaining := Others(nodes, n);
    var index;
    plan, index := policy.Decide(n, ids, storage, remaining);
    var drops := policy.Execute(plan, storage);
    DecisionMigrates(policy, s, storage.Contents(), n, nodes, ids, index, plan);
  }

  /** The event is handled unless it is older than the subscription, the node has no stage in the current plan, or the node
      is unknown. */
  method OnNodeLeft(policy: PriorityMigration, storage: MockKVStore, stale: bool, current: Option<PipelinePlan>,
                    n: NodeId, nodes: seq<(NodeId, NodeState)>)
    returns (plan: Option<MigrationPlan>)
    requires StoreOk(storage.Contents())
    modifies storage
    ensures plan.Some? <==>
      !stale && (current.Some? ==> exists p :: p in current.value.placements && p.nodeId == n) && Named(nodes, n)
    ensures plan.None? ==> storage.Contents() == old(storage.Contents())
    ensures plan.Some? ==> MigratedAway(policy, old(storage.Contents()), storage.Contents(), n, nodes, plan.value)
  {
    hide MigratedAway, StoreOk;
    if stale {
      return None;
    }
    if current.Some? && !HasStage(current.value, n) {
      return None;
    }
    if !exists i :: 0 <= i < |nodes| && nodes[i].0 == n {
      return None;
    }
    var p := MigrateAway(policy, storage, n, nodes);
    return Some(p);
  }
}
