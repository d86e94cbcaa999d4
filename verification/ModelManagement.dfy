/** The ledger of layer ranges and accelerator memory (core/model_manager.py, apply_pipeline_plan). */
module ModelManagement {
  import opened Types
  import opened Coverage

  /** Experts are (id, bytes) pairs; the first pair with an id counts. */
  datatype Model = Model(numLayers: nat, totalParamsBytes: nat, experts: seq<(int, nat)>)

  datatype LedgerError =
    | BadCoverage(error: CoverageError)
    | UnknownNode(nodeId: NodeId)
    | OfflineNode(nodeId: NodeId)
    | InsufficientMemory(nodeId: NodeId, need: int, available: int)

  // ---------------------------------------------------------------- memory of a placement

  function ExpertBytes(experts: seq<(int, nat)>, id: int): nat {
    if experts == [] then 0
    else if experts[0].0 == id then experts[0].1
    else ExpertBytes(experts[1..], id)
  }

  function ExpertsBytes(experts: seq<(int, nat)>, ids: seq<int>): nat {
    if ids == [] then 0 else ExpertBytes(experts, ids[0]) + ExpertsBytes(experts, ids[1..])
  }

  function LayerBytes(m: Model): nat {
    m.totalParamsBytes / if m.numLayers > 1 then m.numLayers else 1
  }

  /** _placement_memory. */
  function PlacementMemory(m: Model, p: Placement): int {
    var layers := match p.layerRange
      case None => 0
      case Some(r) => (r.end - r.start) * LayerBytes(m);
    layers + ExpertsBytes(m.experts, p.expertsGpu)
  }

  lemma PlacementMemoryNonNegative(m: Model, p: Placement)
    requires RangeInside(p, m.numLayers)
    ensures PlacementMemory(m, p) >= 0
  {
    var r := p.layerRange.value;
    assert (r.end - r.start) * LayerBytes(m) >= 0;
  }

  // ---------------------------------------------------------------- the ledger as a value

  /** Node states, the current placements and the bytes this manager has reserved. */
  datatype Ledger = Ledger(nodes: map<NodeId, NodeState>, placements: map<NodeId, Placement>, reserved: map<NodeId, int>)

  function ReservedOn(l: Ledger, n: NodeId): int {
    if n in l.reserved then l.reserved[n] else 0
  }

  /** The bytes of a node that are free or that this manager reserved. */
  function Budget(l: Ledger, n: NodeId): int
    requires n in l.nodes
  {
    l.nodes[n].memoryFree + ReservedOn(l, n)
  }

  /** The plan as a table keyed by node. */
  function ByNode(ps: seq<Placement>): map<NodeId, Placement> {
    if ps == [] then map[] else ByNode(ps[..|ps| - 1])[ps[|ps| - 1].nodeId := ps[|ps| - 1]]
  }

  lemma {:induction false} ByNodeEntries(ps: seq<Placement>)
    ensures forall n :: n in ByNode(ps) ==> ByNode(ps)[n] in ps && ByNode(ps)[n].nodeId == n
    ensures forall p :: p in ps ==> p.nodeId in ByNode(ps)
    ensures DistinctNodes(ps) ==> forall p :: p in ps ==> ByNode(ps)[p.nodeId] == p
  {
    if ps != [] {
      var k := |ps| - 1;
      ByNodeEntries(ps[..k]);
      assert ps == ps[..k] + [ps[k]];
    }
  }

  lemma NotYetInTable(ps: seq<Placement>, i: nat)
    requires DistinctNodes(ps) && i < |ps|
    ensures ps[i].nodeId !in ByNode(ps[..i])
  {
    ByNodeEntries(ps[..i]);
  }

  function Demand(m: Model, ps: seq<Placement>): map<NodeId, int> {
    map n | n in ByNode(ps) :: PlacementMemory(m, ByNode(ps)[n])
  }

  /** Every node of the plan is known, alive and has room once its old reservation is given back. */
  ghost predicate CanHost(m: Model, l: Ledger, ps: seq<Placement>) {
    && Tiles(ps, m.numLayers)
    && forall n :: n in ByNode(ps) ==> Room(l, n, PlacementMemory(m, ByNode(ps)[n]))
  }

  predicate Room(l: Ledger, n: NodeId, need: int) {
    n in l.nodes && l.nodes[n].alive && need <= Budget(l, n)
  }

  /** The ledger after a plan is accepted. */
  ghost function Committed(m: Model, l: Ledger, ps: seq<Placement>): Ledger {
    var plan := ByNode(ps);
    var nodes := map n | n in l.nodes ::
      if n in plan then
        l.nodes[n].(memoryFree := Budget(l, n) - PlacementMemory(m, plan[n]), layerRange := plan[n].layerRange)
      else if n in l.placements then
        l.nodes[n].(memoryFree := Budget(l, n), layerRange := None)
      else l.nodes[n];
    Ledger(nodes, plan, Demand(m, ps))
  }

  ghost function Applied(m: Model, l: Ledger, ps: seq<Placement>): Ledger {
    if CanHost(m, l, ps) then Committed(m, l, ps) else l
  }

  // ---------------------------------------------------------------- invariant and conservation

  ghost predicate Balanced(m: Model, l: Ledger) {
    && l.reserved.Keys == l.placements.Keys
    && (forall n :: n in l.placements ==>
      && n in l.nodes
      && l.placements[n].nodeId == n
      && l.reserved[n] == PlacementMemory(m, l.placements[n]) >= 0)
    && (forall n :: n in l.nodes ==>
      && l.nodes[n].memoryFree >= 0
      && l.nodes[n].layerRange == if n in l.placements then l.placements[n].layerRange else None)
    && (forall n :: n in l.placements ==> l.placements[n].layerRange.Some?)
  }

  /** What can happen to the ledger while the controller runs. */
  datatype LedgerOp =
    | ApplyPlan(placements: seq<Placement>)
    | SetAlive(nodeId: NodeId, alive: bool)
    | Join(nodeId: NodeId, memoryFree: nat)

  ghost function StepLedger(m: Model, l: Ledger, op: LedgerOp): Ledger {
    match op
    case ApplyPlan(ps) => Applied(m, l, ps)
    case SetAlive(n, b) => if n in l.nodes then l.(nodes := l.nodes[n := l.nodes[n].(alive := b)]) else l
    case Join(n, free) =>
      if n in l.nodes then l else l.(nodes := l.nodes[n := NodeState(free, 0.0, true, None, {})])
  }

  ghost function RunLedger(m: Model, l: Ledger, ops: seq<LedgerOp>): Ledger {
    if ops == [] then l else StepLedger(m, RunLedger(m, l, ops[..|ops| - 1]), ops[|ops| - 1])
  }

  lemma CommittedBalanced(m: Model, l: Ledger, ps: seq<Placement>)
    requires Balanced(m, l) && CanHost(m, l, ps)
    ensures Balanced(m, Committed(m, l, ps))
    ensures Committed(m, l, ps).nodes.Keys == l.nodes.Keys
    ensures forall n :: n in l.nodes ==> Budget(Committed(m, l, ps), n) == Budget(l, n)
  {
    ByNodeEntries(ps);
    forall n | n in ByNode(ps)
      ensures PlacementMemory(m, ByNode(ps)[n]) >= 0 && ByNode(ps)[n].layerRange.Some?
    {
      PlacementMemoryNonNegative(m, ByNode(ps)[n]);
    }
  }

  lemma StepBalanced(m: Model, l: Ledger, op: LedgerOp)
    requires Balanced(m, l)
    ensures Balanced(m, StepLedger(m, l, op))
    ensures forall n :: n in l.nodes ==> n in StepLedger(m, l, op).nodes && Budget(StepLedger(m, l, op), n) == Budget(l, n)
  {
    hide PlacementMemory, Tiles, CanHost, Committed;
    match op
    case ApplyPlan(ps) =>
      if CanHost(m, l, ps) {
        CommittedBalanced(m, l, ps);
      }
    case SetAlive(n, b) =>
    case Join(n, free) =>
  }

  /** Over any run, accepted and rejected plans mixed, no byte is lost or invented on any node. */
  lemma {:induction false} MemoryConserved(m: Model, l: Ledger, ops: seq<LedgerOp>)
    requires Balanced(m, l)
    ensures Balanced(m, RunLedger(m, l, ops))
    ensures forall n :: n in l.nodes ==> n in RunLedger(m, l, ops).nodes && Budget(RunLedger(m, l, ops), n) == Budget(l, n)
  {
    hide PlacementMemory, StepLedger, Balanced;
    if ops != [] {
      var k := |ops| - 1;
      MemoryConserved(m, l, ops[..k]);
      StepBalanced(m, RunLedger(m, l, ops[..k]), ops[k]);
    }
  }

  /** Registering a node again replaces its state but not what this manager has reserved on it. */
  function Reregistered(l: Ledger, n: NodeId, free: nat): Ledger {
    l.(nodes := l.nodes[n := NodeState(free, 0.0, true, None, {})])
  }

  /** A node that registers again keeps its bytes accounted for exactly when it reports the free memory that was on record,
      and the ledger in order exactly when it was not part of the current plan. */
  lemma ReregistrationConservesIff(m: Model, l: Ledger, n: NodeId, free: nat)
    requires Balanced(m, l) && n in l.nodes
    ensures Budget(Reregistered(l, n, free), n) == Budget(l, n) <==> free == l.nodes[n].memoryFree
    ensures Balanced(m, Reregistered(l, n, free)) <==> n !in l.placements
  {
    hide PlacementMemory;
    if n in l.placements {
      assert l.placements[n].layerRange.Some?;
      assert Reregistered(l, n, free).nodes[n].layerRange.None?;
    }
  }

  /** The plan that puts the whole model on one node. */
  function WholeOn(m: Model, n: NodeId): Placement {
    Placement(n, Some(LayerRange(0, m.numLayers)), [])
  }

  lemma OneNodeTiles(m: Model, n: NodeId)
    requires m.numLayers > 0
    ensures PlacementMemory(m, WholeOn(m, n)) >= 0
    ensures Tiles([WholeOn(m, n)], m.numLayers) && ByNode([WholeOn(m, n)]) == map[n := WholeOn(m, n)]
  {
    var p := WholeOn(m, n);
    assert RangeInside(p, m.numLayers) && p in [p];
    PlacementMemoryNonNegative(m, p);
    assert forall k :: 0 <= k < m.numLayers ==> Owns(p, k);
    assert [p][..0] == [];
  }

  /** A plan the ledger accepts although it asks more of the node than the bytes on record for it. */
  ghost predicate Overbooks(m: Model, books: Ledger, l: Ledger, n: NodeId, ps: seq<Placement>)
    requires n in l.nodes
  {
    CanHost(m, books, ps) && n in ByNode(ps) && PlacementMemory(m, ByNode(ps)[n]) > Budget(l, n)
  }

  /** What follows for the next plan: the bytes on record are what the node really has, so a node that comes back with its
      reservation given up, and reports more free than was on record, can be promised more than it has. */
  lemma ReregistrationOverbooksIff(m: Model, l: Ledger, n: NodeId, free: nat)
    requires Balanced(m, l) && n in l.nodes
    ensures (exists next, ps :: Overbooks(next, Reregistered(l, n, free), l, n, ps)) <==> free > l.nodes[n].memoryFree
  {
    hide PlacementMemory, Tiles;
    var books := Reregistered(l, n, free);
    if free > l.nodes[n].memoryFree {
      var next := Model(1, Budget(l, n) + 1, []);
      OneLayerBytes(next, n);
      OneNodeTiles(next, n);
      assert Overbooks(next, books, l, n, [WholeOn(next, n)]);
    } else {
      forall next, ps
        ensures !Overbooks(next, books, l, n, ps)
      {
        assert Budget(books, n) <= Budget(l, n);
      }
    }
  }

  lemma OneLayerBytes(m: Model, n: NodeId)
    requires m.numLayers == 1 && m.experts == []
    ensures PlacementMemory(m, WholeOn(m, n)) == m.totalParamsBytes
  {
  }

  /** Giving back first and taking up afterwards lands in the committed node table. */
  lemma ReleaseThenTakeUp(m: Model, l: Ledger, ps: seq<Placement>, available: map<NodeId, int>,
                          released: map<NodeId, NodeState>, taken: map<NodeId, NodeState>)
    requires released.Keys == l.nodes.Keys == taken.Keys
    requires available.Keys == ByNode(ps).Keys <= l.nodes.Keys
    requires forall n :: n in available ==> available[n] == Budget(l, n)
    requires forall n :: n in l.nodes ==>
      released[n] ==
        if n in l.placements && n !in ByNode(ps)
        then l.nodes[n].(memoryFree := Budget(l, n), layerRange := None)
        else l.nodes[n]
    requires forall n :: n in l.nodes ==>
      taken[n] ==
        if n in ByNode(ps)
        then released[n].(memoryFree := available[n] - Demand(m, ps)[n], layerRange := ByNode(ps)[n].layerRange)
        else released[n]
    ensures taken == Committed(m, l, ps).nodes
  {
    hide PlacementMemory;
    var c := Committed(m, l, ps).nodes;
    forall n | n in l.nodes
      ensures taken[n] == c[n]
    {
      assert n in ByNode(ps) ==> Demand(m, ps)[n] == PlacementMemory(m, ByNode(ps)[n]);
    }
  }

  // ---------------------------------------------------------------- the manager

  class ModelManager {
    const model: Model
    const nodeMgr: NodeManager
    var placements: map<NodeId, Placement>
    var reserved: map<NodeId, int>

    constructor (model: Model, nodeMgr: NodeManager)
      ensures this.model == model && this.nodeMgr == nodeMgr
      ensures placements == map[] && reserved == map[]
    {
      this.model := model;
      this.nodeMgr := nodeMgr;
      placements := map[];
      reserved := map[];
    }

    ghost function Snapshot(): Ledger
      reads this, nodeMgr
    {
      Ledger(nodeMgr.nodes, placements, reserved)
    }

    /** The check made before anything is written: the memory each node of the plan would have to give. */
    method CheckCapacity(ps: seq<Placement>, desired: map<NodeId, int>)
      returns (r: Result<map<NodeId, int>, LedgerError>)
      requires Tiles(ps, model.numLayers) && desired == Demand(model, ps)
      ensures r.Success? <==> CanHost(model, Snapshot(), ps)
      ensures r.Success? ==> r.value.Keys == desired.Keys
      ensures r.Success? ==> forall n :: n in desired ==> n in nodeMgr.nodes && r.value[n] == Budget(Snapshot(), n)
      ensures r.Failure? ==>
        match r.error
        case BadCoverage(_) => false
        case UnknownNode(n) => n in desired && n !in nodeMgr.nodes
        case OfflineNode(n) => n in desired && n in nodeMgr.nodes && !nodeMgr.nodes[n].alive
        case InsufficientMemory(n, need, available) =>
          && n in desired && n in nodeMgr.nodes
          && need == desired[n] > available == Budget(Snapshot(), n)
    {
      hide PlacementMemory, Tiles;
      ByNodeEntries(ps);
      var available: map<NodeId, int> := map[];
      for i := 0 to |ps|
        invariant forall k :: 0 <= k < i ==> ps[k].nodeId in available
        invariant available.Keys <= desired.Keys
        invariant forall n :: n in available ==> Room(Snapshot(), n, desired[n]) && available[n] == Budget(Snapshot(), n)
      {
        var n := ps[i].nodeId;
        assert ps[i] in ps;
        assert n in ByNode(ps) && desired[n] == PlacementMemory(model, ByNode(ps)[n]);
        if n !in nodeMgr.nodes {
          return Failure(UnknownNode(n));
        }
        if !nodeMgr.nodes[n].alive {
          return Failure(OfflineNode(n));
        }
        var freeAfterRelease := nodeMgr.nodes[n].memoryFree + if n in reserved then reserved[n] else 0;
        if desired[n] > freeAfterRelease {
          return Failure(InsufficientMemory(n, desired[n], freeAfterRelease));
        }
        available := available[n := freeAfterRelease];
      }
      forall n | n in desired
        ensures n in available
      {
        var k :| 0 <= k < |ps| && ps[k] == ByNode(ps)[n];
      }
      assert forall n :: n in ByNode(ps) ==> desired[n] == PlacementMemory(model, ByNode(ps)[n]);
      return Success(available);
    }

    /** apply_pipeline_plan: all or nothing. */
    method ApplyPipelinePlan(ps: seq<Placement>) returns (r: Result<(), LedgerError>)
      modifies this, nodeMgr
      ensures r.Success? <==> CanHost(model, old(Snapshot()), ps)
      ensures r.Success? ==> Snapshot() == Committed(model, old(Snapshot()), ps)
      ensures r.Failure? ==> Snapshot() == old(Snapshot())
    {
      hide PlacementMemory;
      var coverage := Validate(ps, model.numLayers);
      if coverage.Failure? {
        return Failure(BadCoverage(coverage.error));
      }
      ByNodeEntries(ps);
      var desired := MemoryDemand(ps);
      var capacity := CheckCapacity(ps, desired);
      if capacity.Failure? {
        return Failure(capacity.error);
      }
      ghost var before := Snapshot();
      ReleaseDropped(desired.Keys);
      ghost var released := nodeMgr.nodes;
      TakeUp(ps, capacity.value, desired);
      ReleaseThenTakeUp(model, before, ps, capacity.value, released, nodeMgr.nodes);
      placements := PlanTable(ps);
      reserved := desired;
      return Success(());
    }

    method MemoryDemand(ps: seq<Placement>) returns (desired: map<NodeId, int>)
      ensures desired == Demand(model, ps)
    {
      hide PlacementMemory;
      desired := map[];
      for i := 0 to |ps|
        invariant desired == Demand(model, ps[..i])
      {
        assert ps[..i + 1][..i] == ps[..i];
        desired := desired[ps[i].nodeId := PlacementMemory(model, ps[i])];
      }
      assert ps[..|ps|] == ps;
    }

    method PlanTable(ps: seq<Placement>) returns (plan: map<NodeId, Placement>)
      ensures plan == ByNode(ps)
    {
      plan := map[];
      for i := 0 to |ps|
        invariant plan == ByNode(ps[..i])
      {
        assert ps[..i + 1][..i] == ps[..i];
        plan := plan[ps[i].nodeId := ps[i]];
      }
      assert ps[..|ps|] == ps;
    }

    /** Nodes that leave the plan get their reservation back and forget their range. */
    method ReleaseDropped(next: set<NodeId>)
      modifies nodeMgr
      ensures nodeMgr.nodes.Keys == old(nodeMgr.nodes).Keys
      ensures forall n :: n in nodeMgr.nodes ==>
        nodeMgr.nodes[n] ==
          if n in placements && n !in next
          then old(nodeMgr.nodes)[n].(memoryFree := Budget(old(Snapshot()), n), layerRange := None)
          else old(nodeMgr.nodes)[n]
    {
      var todo := placements.Keys - next;
      while todo != {}
        invariant todo <= placements.Keys - next
        invariant nodeMgr.nodes.Keys == old(nodeMgr.nodes).Keys
        invariant forall n :: n in nodeMgr.nodes ==>
          nodeMgr.nodes[n] ==
            if n in placements && n !in next && n !in todo
            then old(nodeMgr.nodes)[n].(memoryFree := Budget(old(Snapshot()), n), layerRange := None)
            else old(nodeMgr.nodes)[n]
        decreases todo
      {
        var n :| n in todo;
        todo := todo - {n};
        if n in nodeMgr.nodes {
          var s := nodeMgr.nodes[n];
          var back := if n in reserved then reserved[n] else 0;
          nodeMgr.nodes := nodeMgr.nodes[n := s.(memoryFree := s.memoryFree + back, layerRange := None)];
        }
      }
    }

    /** Nodes of the plan pay for their placement and record their range. */
    method TakeUp(ps: seq<Placement>, available: map<NodeId, int>, desired: map<NodeId, int>)
      requires DistinctNodes(ps)
      requires forall p :: p in ps ==> p.nodeId in nodeMgr.nodes && p.nodeId in available && p.nodeId in desired
      modifies nodeMgr
      ensures nodeMgr.nodes.Keys == old(nodeMgr.nodes).Keys
      ensures forall n :: n in nodeMgr.nodes ==>
        nodeMgr.nodes[n] ==
          if n in ByNode(ps) && n in available && n in desired
          then old(nodeMgr.nodes)[n].(memoryFree := available[n] - desired[n], layerRange := ByNode(ps)[n].layerRange)
          else old(nodeMgr.nodes)[n]
    {
      ghost var before := nodeMgr.nodes;
      for i := 0 to |ps|
        invariant nodeMgr.nodes.Keys == before.Keys
        invariant forall n :: n in before ==>
          nodeMgr.nodes[n] ==
            if n in ByNode(ps[..i]) && n in available && n in desired
            then before[n].(memoryFree := available[n] - desired[n], layerRange := ByNode(ps[..i])[n].layerRange)
            else before[n]
      {
        var p := ps[i];
        assert p in ps;
        NotYetInTable(ps, i);
        assert ps[..i + 1][..i] == ps[..i];
        var s := nodeMgr.nodes[p.nodeId];
        nodeMgr.nodes := nodeMgr.nodes[p.nodeId :=
          s.(memoryFree := available[p.nodeId] - desired[p.nodeId], layerRange := p.layerRange)];
      }
      assert ps[..|ps|] == ps;
    }
  }
}
