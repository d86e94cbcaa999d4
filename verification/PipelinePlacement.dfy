/** Turning the published plan into a chain of stage tasks (policies/placement.py, LayeredPipelinePlacement). */
module PipelinePlacement {
  import opened Types
  import opened Sorting
  import opened Coverage
  import opened TorchEngine

  datatype Request = Request(requestId: string, prompt: Prompt, maxTokens: int)

  // ---------------------------------------------------------------- the route of a request

  predicate Usable(p: Placement, healthy: set<NodeId>) {
    p.nodeId in healthy && p.layerRange.Some?
  }

  /** The placements on healthy nodes, in list order; the others are left out silently. */
  function Keep(ps: seq<Placement>, healthy: set<NodeId>): (r: seq<Placement>)
    ensures forall p :: p in r <==> p in ps && Usable(p, healthy)
  {
    if ps == [] then []
    else
      assert ps == ps[..|ps| - 1] + [ps[|ps| - 1]];
      Keep(ps[..|ps| - 1], healthy) + if Usable(ps[|ps| - 1], healthy) then [ps[|ps| - 1]] else []
  }

  function StartKey(p: Placement): int {
    if p.layerRange.Some? then p.layerRange.value.start else 0
  }

  predicate StartLe(p: Placement, q: Placement) {
    StartKey(p) <= StartKey(q)
  }

  function Route(ps: seq<Placement>, healthy: set<NodeId>): seq<Placement> {
    Sort(Keep(ps, healthy), StartLe)
  }

  /** The layers a route runs, in order. */
  function LayersOf(route: seq<Placement>): seq<int> {
    if route == [] then []
    else LayersOf(route[..|route| - 1]) + IdsOf(route[|route| - 1])
  }

  function IdsOf(p: Placement): seq<int> {
    if p.layerRange.None? then [] else LayerIds(p.layerRange.value.start, p.layerRange.value.end)
  }

  lemma RouteMembers(ps: seq<Placement>, healthy: set<NodeId>)
    ensures SortedBy(Route(ps, healthy), StartLe)
    ensures forall p :: p in Route(ps, healthy) <==> p in ps && Usable(p, healthy)
  {
    assert TotalPreorder(StartLe);
    SortSorts(Keep(ps, healthy), StartLe);
    MembersOfEqualMultisets(Route(ps, healthy), Keep(ps, healthy));
  }

  lemma {:induction false} LayersOfCons(p: Placement, ps: seq<Placement>)
    ensures LayersOf([p] + ps) == IdsOf(p) + LayersOf(ps)
  {
    hide IdsOf;
    if ps == [] {
      assert [p] + ps == [p];
      assert [p][..0] == [];
    } else {
      var n := |ps| - 1;
      LayersOfCons(p, ps[..n]);
      assert ([p] + ps)[..n + 1] == [p] + ps[..n];
      assert (IdsOf(p) + LayersOf(ps[..n])) + IdsOf(ps[n]) == IdsOf(p) + (LayersOf(ps[..n]) + IdsOf(ps[n]));
    }
  }

  lemma LayerIdsSplit(from: int, mid: int, to: int)
    requires from <= mid <= to
    ensures LayerIds(from, mid) + LayerIds(mid, to) == LayerIds(from, to)
  {
  }

  lemma {:induction false} ChainLayers(ps: seq<Placement>, from: int, to: int)
    requires Chain(ps, from, to)
    ensures LayersOf(ps) == LayerIds(from, to)
  {
    if ps != [] {
      var mid := ps[0].layerRange.value.end;
      ChainLayers(ps[1..], mid, to);
      assert mid <= to by {
        ChainOwners(ps[1..], mid, to);
      }
      LayersOfCons(ps[0], ps[1..]);
      assert [ps[0]] + ps[1..] == ps;
      LayerIdsSplit(from, mid, to);
    }
  }

  lemma {:induction false} LayersOfMember(ps: seq<Placement>, k: int)
    requires k in LayersOf(ps)
    ensures Covered(ps, k)
  {
    var n := |ps| - 1;
    var p := ps[n];
    if k in IdsOf(p) {
      assert p in ps && Owns(p, k);
    } else {
      LayersOfMember(ps[..n], k);
      var q :| q in ps[..n] && Owns(q, k);
      assert q in ps;
    }
  }

  /** Among disjoint ranges, ordering by start is the order by range. */
  lemma StartOrderIsRangeOrder(ps: seq<Placement>, numLayers: int)
    requires Tiles(ps, numLayers) && SortedBy(ps, StartLe)
    ensures SortedBy(ps, RangeLe)
  {
    forall i, j | 0 <= i < j < |ps|
      ensures RangeLe(ps[i], ps[j])
    {
      var p, q := ps[i], ps[j];
      assert StartLe(p, q) && p in ps && q in ps;
      if StartKey(p) == StartKey(q) {
        assert Owns(p, StartKey(p)) && Owns(q, StartKey(p));
      }
    }
  }

  lemma KeepAll(ps: seq<Placement>, healthy: set<NodeId>)
    requires forall p :: p in ps ==> Usable(p, healthy)
    ensures Keep(ps, healthy) == ps
  {
    if ps != [] {
      assert ps == ps[..|ps| - 1] + [ps[|ps| - 1]];
      KeepAll(ps[..|ps| - 1], healthy);
    }
  }

  /** With every node of a valid plan healthy, the route joins up over the whole model. */
  lemma FullRouteIsChain(ps: seq<Placement>, healthy: set<NodeId>, numLayers: int)
    requires Tiles(ps, numLayers)
    requires forall p :: p in ps ==> p.nodeId in healthy
    ensures Chain(Route(ps, healthy), 0, numLayers)
    ensures Tiles(Route(ps, healthy), numLayers)
  {
    forall p | p in ps
      ensures Usable(p, healthy)
    {
      assert RangeInside(p, numLayers);
    }
    KeepAll(ps, healthy);
    RouteMembers(ps, healthy);
    TilesOfPermutation(ps, Route(ps, healthy), numLayers);
    StartOrderIsRangeOrder(Route(ps, healthy), numLayers);
    SortedTilesIsChain(Route(ps, healthy), numLayers);
  }

  /** A route runs layers 0 to numLayers - 1, once each and in order, exactly when no node of the plan was unhealthy. */
  lemma RouteIsCompleteIff(ps: seq<Placement>, healthy: set<NodeId>, numLayers: int)
    requires Tiles(ps, numLayers)
    ensures LayersOf(Route(ps, healthy)) == LayerIds(0, numLayers)
       <==> forall p :: p in ps ==> p.nodeId in healthy
  {
    if forall p :: p in ps ==> p.nodeId in healthy {
      FullRouteIsChain(ps, healthy, numLayers);
      ChainLayers(Route(ps, healthy), 0, numLayers);
    } else {
      var p :| p in ps && p.nodeId !in healthy;
      UnhealthyLayersMissing(ps, healthy, numLayers, p);
      assert LayerIds(0, numLayers)[StartKey(p)] == StartKey(p);
    }
  }

  /** However a valid plan cuts the model and lists its parts, running the routed stages in turn is running the model. */
  lemma AnyCutRunsTheModel<H>(net: Net<H>, ps: seq<Placement>, healthy: set<NodeId>, numLayers: int, prompt: Prompt)
    requires Tiles(ps, numLayers)
    requires forall p :: p in ps ==> p.nodeId in healthy
    ensures RunLayers(net, LayersOf(Route(ps, healthy)), (net.embed)(prompt)) == WholeModel(net, numLayers, prompt)
  {
    FullRouteIsChain(ps, healthy, numLayers);
    ChainLayers(Route(ps, healthy), 0, numLayers);
  }

  lemma UnhealthyLayersMissing(ps: seq<Placement>, healthy: set<NodeId>, numLayers: int, p: Placement)
    requires Tiles(ps, numLayers) && p in ps && p.nodeId !in healthy
    ensures 0 <= StartKey(p) < numLayers
    ensures StartKey(p) !in LayersOf(Route(ps, healthy))
  {
    assert RangeInside(p, numLayers);
    var k := StartKey(p);
    RouteMembers(ps, healthy);
    assert !Covered(Route(ps, healthy), k) by {
      assert Owns(p, k);
      assert forall q :: q in Route(ps, healthy) && Owns(q, k) ==> q == p;
    }
    if k in LayersOf(Route(ps, healthy)) {
      LayersOfMember(Route(ps, healthy), k);
    }
  }

  /** Whatever nodes are left out, no node serves two stages of one request. */
  lemma RouteNodesDistinct(ps: seq<Placement>, healthy: set<NodeId>)
    requires DistinctNodes(ps)
    ensures DistinctNodes(Route(ps, healthy))
  {
    KeepDistinct(ps, healthy);
    DistinctNodesOfPermutation(Keep(ps, healthy), Route(ps, healthy));
  }

  lemma {:induction false} KeepDistinct(ps: seq<Placement>, healthy: set<NodeId>)
    requires DistinctNodes(ps)
    ensures DistinctNodes(Keep(ps, healthy))
  {
    if ps != [] {
      var n := |ps| - 1;
      KeepDistinct(ps[..n], healthy);
      var r := Keep(ps[..n], healthy);
      forall i | 0 <= i < |r|
        ensures r[i].nodeId != ps[n].nodeId
      {
        assert r[i] in ps[..n];
      }
    }
  }

  // ---------------------------------------------------------------- tasks

  function TaskFor<H>(p: Placement, index: nat, count: nat, epoch: int, req: Request, taskId: nat): Task<H> {
    Task(taskId, req.requestId, p.nodeId, p.layerRange, req.prompt, req.maxTokens, index, count, epoch, None, 0, [], 0)
  }

  function TasksFor<H>(route: seq<Placement>, epoch: int, req: Request, firstId: nat): (ts: seq<Task<H>>)
    ensures |ts| == |route|
  {
    seq(|route|, i requires 0 <= i < |route| => TaskFor(route[i], i, |route|, epoch, req, firstId + i))
  }

  /** The tasks of a route: each is for its stage's node and range, under the epoch, with the request's own data and nothing
      yet to work on; ids differ, positions count from 0, and exactly the last task is the one that gives the text. */
  lemma RouteTasks<H>(route: seq<Placement>, epoch: int, req: Request, firstId: nat, i: nat, j: nat)
    requires i < |route| && j < |route|
    ensures var t := TasksFor<H>(route, epoch, req, firstId)[i];
      && t.nodeId == route[i].nodeId && t.layerRange == route[i].layerRange && t.epoch == epoch
      && t.requestId == req.requestId && t.prompt == req.prompt && t.maxTokens == req.maxTokens
      && t.activation == None && t.retries == 0
      && t.stageIndex == i && (t.stageIndex == t.stageCount - 1 <==> i == |route| - 1)
      && (i != j ==> t.taskId != TasksFor<H>(route, epoch, req, firstId)[j].taskId)
  {
  }

  // ---------------------------------------------------------------- the policy

  class LayeredPipelinePlacement {
    var placements: seq<Placement>
    var pipelineEpoch: int

    constructor (placements: seq<Placement>, pipelineEpoch: int)
      ensures this.placements == placements && this.pipelineEpoch == pipelineEpoch
    {
      this.placements := placements;
      this.pipelineEpoch := pipelineEpoch;
    }

    method SetPlan(plan: PipelinePlan)
      modifies this
      ensures placements == plan.placements && pipelineEpoch == plan.epoch
    {
      placements := plan.placements;
      pipelineEpoch := plan.epoch;
    }

    /** place: one task per usable stage, all bound to the epoch published at this moment. */
    method Place<H(!new)>(healthy: set<NodeId>, req: Request, firstId: nat) returns (tasks: seq<Task<H>>)
      ensures tasks == TasksFor(Route(placements, healthy), pipelineEpoch, req, firstId)
    {
      var route := Sort(Keep(placements, healthy), StartLe);
      tasks := [];
      for i := 0 to |route|
        invariant tasks == TasksFor<H>(route, pipelineEpoch, req, firstId)[..i]
      {
        tasks := tasks + [TaskFor(route[i], i, |route|, pipelineEpoch, req, firstId + i)];
      }
    }
  }
}
