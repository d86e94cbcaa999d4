/** Prepare everywhere, update the ledger, copy KV, activate everywhere, publish
    (core/pipeline_controller.py, PipelineReconfigurationCoordinator). One call at a time; interleavings are in Protocol. */
module Coordinator {
  import opened Types
  import opened Coverage
  import opened ModelManagement
  import opened TorchEngine
  import opened PipelinePlacement
  import opened KvStore
  import opened KvCopy
  import opened Apportionment

  datatype ReconfigError =
    | PlanRejected(coverage: CoverageError)
    | UnavailableNode(nodeId: NodeId)
    | NoRuntime(nodeId: NodeId)
    | PrepareFailed(nodeId: NodeId, engine: EngineError)
    | LedgerRejected(ledger: LedgerError)

  datatype Report = Report(
    epoch: int, placements: seq<Placement>, prepared: seq<NodeId>, kvCopies: seq<TransferRecord>)

  // ---------------------------------------------------------------- parameter sources

  /** The node that held exactly this range under the current plan, if it is another one. */
  function SourceFor(current: Option<PipelinePlan>, p: Placement): Option<NodeId> {
    if current.None? || p.layerRange.None? then None
    else
      var holder := LastHolder(current.value.placements, p.layerRange);
      if holder == Some(p.nodeId) then None else holder
  }

  function LastHolder(ps: seq<Placement>, r: Option<LayerRange>): Option<NodeId> {
    if ps == [] then None
    else if ps[|ps| - 1].layerRange == r then Some(ps[|ps| - 1].nodeId)
    else LastHolder(ps[..|ps| - 1], r)
  }

  /** The node is the last of the plan to hold exactly this range. */
  ghost predicate HoldsLast(ps: seq<Placement>, r: Option<LayerRange>, n: NodeId) {
    exists i :: 0 <= i < |ps| && ps[i].layerRange == r && ps[i].nodeId == n && forall j :: i < j < |ps| ==> ps[j].layerRange != r
  }

  lemma {:induction false} LastHolderHoldsLast(ps: seq<Placement>, r: Option<LayerRange>, n: NodeId)
    ensures LastHolder(ps, r) == Some(n) <==> HoldsLast(ps, r, n)
  {
    if ps != [] {
      var k := |ps| - 1;
      LastHolderHoldsLast(ps[..k], r, n);
      if ps[k].layerRange != r {
        if HoldsLast(ps[..k], r, n) {
          var i :| 0 <= i < k && ps[..k][i].layerRange == r && ps[..k][i].nodeId == n
            && forall j :: i < j < k ==> ps[..k][j].layerRange != r;
          assert forall j :: i < j < |ps| ==> ps[j].layerRange != r;
          assert ps[i].layerRange == r && ps[i].nodeId == n;
        }
        if HoldsLast(ps, r, n) {
          var i :| 0 <= i < |ps| && ps[i].layerRange == r && ps[i].nodeId == n && forall j :: i < j < |ps| ==> ps[j].layerRange != r;
          assert ps[..k][i] == ps[i];
        }
      }
    }
  }

  /** A node is told to fetch from another one exactly when that one holds the very range under the current plan. */
  lemma SourceIsOtherHolder(current: Option<PipelinePlan>, p: Placement, n: NodeId)
    ensures SourceFor(current, p) == Some(n) <==>
      current.Some? && p.layerRange.Some? && n != p.nodeId && HoldsLast(current.value.placements, p.layerRange, n)
  {
    if current.Some? {
      LastHolderHoldsLast(current.value.placements, p.layerRange, n);
    }
  }

  function AssignmentFor(current: Option<PipelinePlan>, p: Placement, epoch: int): StageAssignment
    requires p.layerRange.Some?
  {
    StageAssignment(epoch, p.nodeId, p.layerRange.value, SourceFor(current, p))
  }

  function ModelSource(a: StageAssignment, fallback: string): string {
    if a.sourceNode.Some? && a.sourceNode.value != "" then a.sourceNode.value else fallback
  }

  // ---------------------------------------------------------------- stages of a plan

  /** The node has the placement's range prepared under this epoch. */
  ghost predicate StageReady(s: EngineState, epoch: int, p: Placement) {
    && epoch in s.prepared
    && Some(s.prepared[epoch].assignment.layerRange) == p.layerRange
    && StageOk(p.nodeId, s, epoch, s.prepared[epoch])
  }

  /** What the node was told about where its parameters come from: another node that has them, or the fallback. */
  ghost predicate SourcedAt(s: EngineState, epoch: int, p: Placement, current: Option<PipelinePlan>, fallback: string) {
    && epoch in s.prepared
    && s.prepared[epoch].assignment.sourceNode == SourceFor(current, p)
    && s.prepared[epoch].modelSource
       == (match SourceFor(current, p) case Some(n) => if n != "" then n else fallback case None => fallback)
  }

  ghost predicate AllSourced(e: map<NodeId, EngineState>, ps: seq<Placement>, epoch: int, current: Option<PipelinePlan>,
                             fallback: string)
  {
    forall p :: p in ps ==> p.nodeId in e && SourcedAt(e[p.nodeId], epoch, p, current, fallback)
  }

  /** Everything about the node except what it has prepared under this epoch. */
  ghost predicate SameBut(s: EngineState, t: EngineState, epoch: int) {
    s.totalLayers == t.totalLayers && s.prepared - {epoch} == t.prepared - {epoch}
  }

  lemma PrepareReadies(s: EngineState, p: Placement, current: Option<PipelinePlan>, epoch: int, src: string)
    requires p.layerRange.Some?
    ensures var r := PrepareResult(p.nodeId, s, AssignmentFor(current, p, epoch), src);
      && (r.Success? <==> RangeFits(s, p.layerRange.value))
      && (r.Success? ==> StageReady(r.value, epoch, p) && SameBut(s, r.value, epoch) && r.value.active == s.active)
  {
  }

  // ---------------------------------------------------------------- what the coordinator governs, as one value

  datatype View = View(
    current: Option<PipelinePlan>, nextEpoch: int, published: PipelinePlan,
    ledger: Ledger, store: Store, engines: map<NodeId, EngineState>)

  /** The node of the placement is active in this epoch with this range. */
  ghost predicate Serving(engines: map<NodeId, EngineState>, epoch: int, p: Placement) {
    && p.nodeId in engines
    && engines[p.nodeId].active == Some(epoch)
    && StageReady(engines[p.nodeId], epoch, p)
  }

  /** The current plan carries the last epoch, is the published one, and each of its nodes is running it. */
  ghost predicate CutOver(v: View) {
    v.current.Some? ==>
      && v.current.value.epoch == v.nextEpoch
      && v.published == v.current.value
      && forall p :: p in v.current.value.placements ==> Serving(v.engines, v.nextEpoch, p)
  }

  ghost predicate PlanValid(m: Model, l: Ledger, ps: seq<Placement>) {
    Tiles(ps, m.numLayers) && forall p :: p in ps ==> p.nodeId in l.nodes && l.nodes[p.nodeId].alive
  }

  ghost predicate Preparable(engines: map<NodeId, EngineState>, ps: seq<Placement>) {
    forall p :: p in ps && p.layerRange.Some? ==>
      p.nodeId in engines && RangeFits(engines[p.nodeId], p.layerRange.value)
  }

  /** The plans apply_plan accepts. */
  ghost predicate Feasible(m: Model, v: View, ps: seq<Placement>) {
    CanHost(m, v.ledger, ps) && Preparable(v.engines, ps)
  }

  /** Nodes may have prepared this epoch; nothing else about them has changed. */
  ghost predicate OnlyPrepared(e: map<NodeId, EngineState>, f: map<NodeId, EngineState>, epoch: int) {
    && e.Keys == f.Keys
    && forall n :: n in e ==> f[n].active == e[n].active && SameBut(e[n], f[n], epoch)
  }

  ghost predicate AllReady(e: map<NodeId, EngineState>, ps: seq<Placement>, epoch: int) {
    forall p :: p in ps ==> p.nodeId in e && StageReady(e[p.nodeId], epoch, p)
  }

  ghost predicate OthersKept(e: map<NodeId, EngineState>, f: map<NodeId, EngineState>, ps: seq<Placement>) {
    e.Keys == f.Keys && forall n :: n in e && n !in NodesOf(ps) ==> f[n] == e[n]
  }

  ghost function WithActive(e: map<NodeId, EngineState>, ps: seq<Placement>, epoch: int): map<NodeId, EngineState> {
    map n | n in e :: if n in NodesOf(ps) then e[n].(active := Some(epoch)) else e[n]
  }

  /** A failed reconfiguration leaves everything a request can see as it was. */
  ghost predicate Invisible(v: View, w: View) {
    w == v.(engines := w.engines) && OnlyPrepared(v.engines, w.engines, v.nextEpoch + 1)
  }

  /** A successful one moves exactly the nodes of the plan to the next epoch and publishes the plan. */
  ghost predicate MovedTo(m: Model, v: View, w: View, ps: seq<Placement>, index: map<int, seq<Location>>) {
    && w.nextEpoch == v.nextEpoch + 1
    && w.current == Some(w.published) && w.published == PipelinePlan(w.nextEpoch, ps)
    && w.ledger == Committed(m, v.ledger, ps)
    && IndexOf(index, v.store) && Copied(v.store, w.store, index, ps)
    && Activated(v.engines, w.engines, ps, w.nextEpoch)
  }

  ghost predicate Activated(e: map<NodeId, EngineState>, f: map<NodeId, EngineState>, ps: seq<Placement>, epoch: int) {
    && e.Keys == f.Keys
    && (forall n :: n in e ==> SameBut(e[n], f[n], epoch))
    && (forall n :: n in e && n !in NodesOf(ps) ==> f[n] == e[n])
    && forall p :: p in ps ==> Serving(f, epoch, p)
  }

  // ---------------------------------------------------------------- the coordinator

  class PipelineReconfigurationCoordinator<H(!new)> {
    const nodeMgr: NodeManager
    const modelMgr: ModelManager
    const storage: MockKVStore
    const policy: LayeredPipelinePlacement
    var runtimes: map<NodeId, TorchLayeredEngine<H>>
    var currentPlan: Option<PipelinePlan>
    var nextEpoch: int

    constructor (modelMgr: ModelManager, storage: MockKVStore, policy: LayeredPipelinePlacement)
      requires StoreOk(storage.Contents())
      ensures this.modelMgr == modelMgr && this.storage == storage && this.policy == policy
      ensures runtimes == map[] && currentPlan == None
      ensures nextEpoch == if policy.pipelineEpoch > 0 then policy.pipelineEpoch else 0
      ensures Valid() && CutOver(Now())
    {
      this.nodeMgr := modelMgr.nodeMgr;
      this.modelMgr := modelMgr;
      this.storage := storage;
      this.policy := policy;
      runtimes := map[];
      currentPlan := None;
      nextEpoch := if policy.pipelineEpoch > 0 then policy.pipelineEpoch else 0;
    }

    ghost predicate Valid()
      reads this, storage
    {
      && modelMgr.nodeMgr == nodeMgr
      && StoreOk(storage.Contents())
      && forall n :: n in runtimes ==> runtimes[n].nodeId == n
    }

    ghost function Engines(): map<NodeId, EngineState>
      reads this, runtimes.Values
    {
      map n | n in runtimes :: runtimes[n].State()
    }

    ghost function Now(): View
      reads this, modelMgr, modelMgr.nodeMgr, storage, policy, runtimes.Values
    {
      View(currentPlan, nextEpoch, PipelinePlan(policy.pipelineEpoch, policy.placements),
           modelMgr.Snapshot(), storage.Contents(), Engines())
    }

    method AttachRuntime(runtime: TorchLayeredEngine<H>)
      requires Valid()
      modifies this`runtimes
      ensures Valid()
      ensures runtimes == old(runtimes)[runtime.nodeId := runtime]
    {
      runtimes := runtimes[runtime.nodeId := runtime];
    }

    /** _validate_plan. */
    method ValidatePlan(ps: seq<Placement>) returns (r: Result<(), ReconfigError>)
      requires Valid()
      ensures r.Success? <==> PlanValid(modelMgr.model, modelMgr.Snapshot(), ps)
      ensures r.Failure? ==> r.error.PlanRejected? || r.error.UnavailableNode?
    {
      hide Tiles;
      var coverage := Validate(ps, modelMgr.model.numLayers);
      if coverage.Failure? {
        return Failure(PlanRejected(coverage.error));
      }
      for i := 0 to |ps|
        invariant forall k :: 0 <= k < i ==> ps[k].nodeId in nodeMgr.nodes && nodeMgr.nodes[ps[k].nodeId].alive
      {
        var n := ps[i].nodeId;
        assert ps[i] in ps;
        if n !in nodeMgr.nodes || !nodeMgr.nodes[n].alive {
          return Failure(UnavailableNode(n));
        }
      }
      return Success(());
    }

    /** The prepare loop: stops at the first node that cannot prepare; no node's active epoch moves. */
    method PrepareAll(ps: seq<Placement>, epoch: int, modelSource: string)
      returns (r: Result<seq<NodeId>, ReconfigError>)
      requires Valid()
      requires DistinctNodes(ps) && forall p :: p in ps ==> p.layerRange.Some?
      modifies runtimes.Values
      ensures Valid()
      ensures Now() == old(Now()).(engines := Engines())
      ensures r.Success? <==> Preparable(old(Engines()), ps)
      ensures r.Success? ==> r.value == NodesOf(ps)
      ensures r.Success? ==> AllReady(Engines(), ps, epoch) && AllSourced(Engines(), ps, epoch, currentPlan, modelSource)
      ensures r.Failure? ==> r.error.NoRuntime? || r.error.PrepareFailed?
      ensures OnlyPrepared(old(Engines()), Engines(), epoch)
      ensures OthersKept(old(Engines()), Engines(), ps)
    {
      hide StageReady, SameBut, RangeFits, SourcedAt;
      ghost var before := Engines();
      OnlyPreparedReflexive(before, epoch);
      var prepared := [];
      for i := 0 to |ps|
        invariant prepared == NodesOf(ps[..i])
        invariant forall k :: 0 <= k < i ==>
          && ps[k].nodeId in runtimes
          && RangeFits(before[ps[k].nodeId], ps[k].layerRange.value)
          && StageReady(Engines()[ps[k].nodeId], epoch, ps[k])
          && SourcedAt(Engines()[ps[k].nodeId], epoch, ps[k], currentPlan, modelSource)
        invariant OnlyPrepared(before, Engines(), epoch)
        invariant forall n :: n in runtimes && n !in NodesOf(ps[..i]) ==> Engines()[n] == before[n]
      {
        var p := ps[i];
        assert p in ps;
        assert NodesOf(ps[..i + 1]) == NodesOf(ps[..i]) + [p.nodeId];
        NodesOfPrefix(ps, i);
        var outcome := PrepareOne(p, epoch, modelSource);
        if outcome.Failure? {
          return Failure(outcome.error);
        }
        prepared := prepared + [p.nodeId];
      }
      assert ps[..|ps|] == ps;
      return Success(prepared);
    }

    /** One turn of the prepare loop. */
    method PrepareOne(p: Placement, epoch: int, modelSource: string) returns (r: Result<(), ReconfigError>)
      requires Valid() && p.layerRange.Some?
      modifies runtimes.Values
      ensures r.Success? <==> p.nodeId in runtimes && RangeFits(old(Engines())[p.nodeId], p.layerRange.value)
      ensures r.Success? ==> StageReady(Engines()[p.nodeId], epoch, p)
      ensures r.Success? ==> SourcedAt(Engines()[p.nodeId], epoch, p, currentPlan, modelSource)
      ensures r.Failure? ==> (r.error.NoRuntime? || r.error.PrepareFailed?) && Engines() == old(Engines())
      ensures Engines().Keys == old(Engines()).Keys
      ensures forall n :: n in runtimes && n != p.nodeId ==> Engines()[n] == old(Engines())[n]
      ensures forall e :: OnlyPrepared(e, old(Engines()), epoch) ==> OnlyPrepared(e, Engines(), epoch)
    {
      if p.nodeId !in runtimes {
        return Failure(NoRuntime(p.nodeId));
      }
      ghost var before := Engines();
      var assignment := AssignmentFor(currentPlan, p, epoch);
      var source := ModelSource(assignment, modelSource);
      PrepareReadies(runtimes[p.nodeId].State(), p, currentPlan, epoch, source);
      var outcome := runtimes[p.nodeId].PrepareEpoch(assignment, source);
      if outcome.Failure? {
        assert Engines() == before;
        return Failure(PrepareFailed(p.nodeId, outcome.error));
      }
      return Success(());
    }

    /** The activate loop. It cannot fail: every node of the plan has just prepared the epoch. */
    method ActivateAll(ps: seq<Placement>, epoch: int)
      requires Valid()
      requires AllReady(Engines(), ps, epoch)
      modifies runtimes.Values
      ensures Valid()
      ensures Now() == old(Now()).(engines := Engines())
      ensures Engines() == WithActive(old(Engines()), ps, epoch)
    {
      hide StageOk;
      ghost var before := Engines();
      for i := 0 to |ps|
        invariant forall n :: n in runtimes ==>
          runtimes[n].State() == if n in NodesOf(ps[..i]) then before[n].(active := Some(epoch)) else before[n]
      {
        var p := ps[i];
        assert p in ps;
        assert NodesOf(ps[..i + 1]) == NodesOf(ps[..i]) + [p.nodeId];
        var outcome := runtimes[p.nodeId].ActivateEpoch(epoch);
        assert outcome.Success?;
      }
      assert ps[..|ps|] == ps;
      assert Engines() == WithActive(before, ps, epoch);
    }

    /** apply_plan: either the whole cluster moves to the next epoch, or nothing a request can see has changed. */
    method ApplyPlan(ps: seq<Placement>, modelSource: string)
      returns (r: Result<Report, ReconfigError>, ghost index: map<int, seq<Location>>)
      requires Valid() && CutOver(Now())
      modifies this, modelMgr, nodeMgr, storage, policy, runtimes.Values
      ensures Valid() && CutOver(Now()) && runtimes == old(runtimes)
      ensures r.Success? <==> Feasible(modelMgr.model, old(Now()), ps)
      ensures r.Failure? ==> Invisible(old(Now()), Now())
      ensures r.Success? ==> MovedTo(modelMgr.model, old(Now()), Now(), ps, index)
      ensures r.Success? ==>
        && r.value.epoch == nextEpoch && r.value.placements == ps && r.value.prepared == NodesOf(ps)
        && AllSourced(Engines(), ps, nextEpoch, old(currentPlan), modelSource)
        && RecordsSoFar(old(Now()).store, r.value.kvCopies, index, ps, old(Now()).store.order)
      ensures r.Failure? && (r.error.PlanRejected? || r.error.UnavailableNode?) ==>
        !PlanValid(modelMgr.model, old(Now()).ledger, ps)
    {
      hide Tiles, CanHost, Committed, Copied, RecordsSoFar, StoreOk, IndexOf, StageReady, SameBut, PlanValid, Preparable,
           OnlyPrepared, OthersKept, AllReady, WithActive, Activated, MovedTo, Invisible, CutOver, AllSourced;
      ghost var v := Now();
      ghost var m := modelMgr.model;
      index := map[];
      var valid := ValidatePlan(ps);
      if valid.Failure? {
        FeasibleIsValid(m, v, ps);
        FailureIsInvisible(v, Now());
        return Failure(valid.error), index;
      }
      PlanFacts(m, v.ledger, ps);
      var epoch := nextEpoch + 1;
      var prepared := PrepareAll(ps, epoch, modelSource);
      ghost var v1 := Now();
      FailureIsInvisible(v, v1);
      if prepared.Failure? {
        return Failure(prepared.error), index;
      }
      var ledger := CommitLedger(ps);
      if ledger.Failure? {
        return Failure(LedgerRejected(ledger.error)), index;
      }
      var kvCopies;
      kvCopies, index := CopyKv(ps);
      ActivateAll(ps, epoch);
      PrepareThenActivate(v.engines, v1.engines, Engines(), ps, epoch);
      ActivationKeepsSources(v1.engines, ps, epoch, v.current, modelSource);
      Publish(PipelinePlan(epoch, ps));
      ReachesCutOver(m, v, Now(), ps, index);
      return Success(Report(epoch, ps, prepared.value, kvCopies)), index;
    }

    /** The ledger step of apply_plan. */
    method CommitLedger(ps: seq<Placement>) returns (r: Result<(), LedgerError>)
      requires Valid()
      modifies modelMgr, nodeMgr
      ensures Valid() && runtimes == old(runtimes)
      ensures r.Success? <==> CanHost(modelMgr.model, old(Now()).ledger, ps)
      ensures Now() == if r.Success? then old(Now()).(ledger := Committed(modelMgr.model, old(Now()).ledger, ps)) else old(Now())
    {
      hide CanHost, Committed, StoreOk;
      ghost var e := Engines();
      r := modelMgr.ApplyPipelinePlan(ps);
      assert Engines() == e;
    }

    /** The copying step of apply_plan. */
    method CopyKv(ps: seq<Placement>) returns (copies: seq<TransferRecord>, ghost index: map<int, seq<Location>>)
      requires Valid()
      modifies storage
      ensures Valid() && runtimes == old(runtimes)
      ensures Now() == old(Now()).(store := Now().store)
      ensures IndexOf(index, old(Now()).store) && Copied(old(Now()).store, Now().store, index, ps)
      ensures RecordsSoFar(old(Now()).store, copies, index, ps, old(Now()).store.order)
    {
      hide Copied, RecordsSoFar, StoreOk, IndexOf;
      ghost var e := Engines();
      copies, index := CopyReusableKv(storage, ps);
      assert Engines() == e;
    }

    /** The last step of apply_plan: from here on new requests are routed by the new plan. */
    method Publish(plan: PipelinePlan)
      requires Valid()
      modifies this`currentPlan, this`nextEpoch, policy
      ensures Valid() && runtimes == old(runtimes)
      ensures Now() == old(Now()).(current := Some(plan), nextEpoch := plan.epoch, published := plan)
    {
      hide StoreOk;
      ghost var e := Engines();
      currentPlan := Some(plan);
      nextEpoch := plan.epoch;
      policy.SetPlan(plan);
      assert Engines() == e;
    }

    /** drain_old_epoch: every runtime lets go of the epoch; the plan being served is never touched. */
    method DrainOldEpoch(epoch: int) returns (ok: bool)
      requires Valid() && CutOver(Now())
      modifies runtimes.Values
      ensures Valid() && CutOver(Now())
      ensures ok <==> !(currentPlan.Some? && currentPlan.value.epoch == epoch)
      ensures Now() == old(Now()).(engines := if ok then Retired(old(Engines()), epoch) else old(Engines()))
      ensures ok ==> forall n :: n in runtimes ==> epoch !in Engines()[n].prepared && Engines()[n].active != Some(epoch)
    {
      if currentPlan.Some? && currentPlan.value.epoch == epoch {
        return false;
      }
      ghost var v := Now();
      var todo := runtimes.Keys;
      while todo != {}
        invariant todo <= runtimes.Keys
        invariant forall n :: n in runtimes ==>
          runtimes[n].State() == if n in todo then v.engines[n] else RetireResult(v.engines[n], epoch)
        decreases todo
      {
        var n :| n in todo;
        todo := todo - {n};
        runtimes[n].RetireEpoch(epoch);
      }
      assert Engines() == Retired(v.engines, epoch);
      RetireKeepsCutOver(v, epoch);
      return true;
    }

    /** reconfigure_for_topology: with the capability policy the plan, computed for alive nodes, is never refused as a plan;
        an injected policy may propose anything, and its proposal is applied exactly when it is feasible. */
    method ReconfigureForTopology(workers: seq<Worker>, current: seq<Placement>, injected: Option<seq<Placement>>, modelSource: string)
      returns (r: Result<Report, ReconfigError>)
      requires Valid() && CutOver(Now())
      requires DistinctWorkers(workers)
      requires forall w :: w in workers ==> w.alive && w.nodeId in nodeMgr.nodes && nodeMgr.nodes[w.nodeId].alive
      modifies this, modelMgr, nodeMgr, storage, policy, runtimes.Values
      ensures Valid() && CutOver(Now())
      ensures injected.Some? ==>
        && (r.Success? <==> Feasible(modelMgr.model, old(Now()), injected.value))
        && (r.Success? ==> r.value.placements == injected.value)
      ensures injected.None? && workers != [] && modelMgr.model.numLayers >= 1 && r.Failure? ==>
        r.error.NoRuntime? || r.error.PrepareFailed? || r.error.LedgerRejected?
      ensures injected.None? && workers != [] && modelMgr.model.numLayers >= 1 && r.Success? ==>
        Proportional(r.value.placements, workers, modelMgr.model.numLayers) && StrongerOwnMore(r.value.placements, workers)
      ensures r.Success? ==> currentPlan == Some(PipelinePlan(old(nextEpoch) + 1, r.value.placements))
      ensures r.Failure? ==> Invisible(old(Now()), Now())
    {
      hide Tiles, CutOver, Invisible, Feasible, MovedTo, PlanValid, StoreOk, Proportional, StrongerOwnMore;
      ghost var v := Now();
      var ps;
      if injected.Some? {
        ps := injected.value;
      } else {
        ps := PlanForTopology(workers, current);
      }
      ghost var index;
      r, index := ApplyPlan(ps, modelSource);
      if r.Success? {
        MovedToPublishes(modelMgr.model, v, Now(), ps, index);
      }
    }

    /** What the capability policy proposes for the nodes that are alive. */
    method PlanForTopology(workers: seq<Worker>, current: seq<Placement>) returns (ps: seq<Placement>)
      requires DistinctWorkers(workers)
      requires forall w :: w in workers ==> w.alive && w.nodeId in nodeMgr.nodes && nodeMgr.nodes[w.nodeId].alive
      requires modelMgr.nodeMgr == nodeMgr
      ensures workers != [] && modelMgr.model.numLayers >= 1 ==>
        && PlanValid(modelMgr.model, modelMgr.Snapshot(), ps)
        && Proportional(ps, workers, modelMgr.model.numLayers) && StrongerOwnMore(ps, workers)
    {
      hide Tiles, PlanValid, OnAliveNodes, Layout, Split, Proportional, StrongerOwnMore;
      AllAlive(workers);
      ps := Reconfigure(Some(modelMgr.model.numLayers), workers, current);
      if workers != [] && modelMgr.model.numLayers >= 1 {
        TopologyPlanIsValid(modelMgr.model, modelMgr.Snapshot(), workers, ps);
      }
    }
  }

  // ---------------------------------------------------------------- the steps of the argument

  function NodesOf(ps: seq<Placement>): (ns: seq<NodeId>)
    ensures |ns| == |ps|
  {
    seq(|ps|, i requires 0 <= i < |ps| => ps[i].nodeId)
  }

  lemma NodesOfPrefix(ps: seq<Placement>, i: nat)
    requires DistinctNodes(ps) && i < |ps|
    ensures ps[i].nodeId !in NodesOf(ps[..i])
    ensures forall n :: n in NodesOf(ps[..i]) ==> n in NodesOf(ps)
  {
    forall n | n in NodesOf(ps[..i])
      ensures n in NodesOf(ps)
    {
      var k :| 0 <= k < i && NodesOf(ps[..i])[k] == n;
      assert NodesOf(ps)[k] == n;
    }
  }

  lemma NodesOfMembers(ps: seq<Placement>)
    ensures forall p :: p in ps ==> p.nodeId in NodesOf(ps)
  {
    forall p | p in ps
      ensures p.nodeId in NodesOf(ps)
    {
      var i :| 0 <= i < |ps| && ps[i] == p;
      assert NodesOf(ps)[i] == p.nodeId;
    }
  }

  lemma PlanFacts(m: Model, l: Ledger, ps: seq<Placement>)
    requires PlanValid(m, l, ps)
    ensures DistinctNodes(ps) && forall p :: p in ps ==> p.layerRange.Some?
  {
    assert forall p :: p in ps ==> RangeInside(p, m.numLayers);
  }

  lemma FeasibleIsValid(m: Model, v: View, ps: seq<Placement>)
    ensures CanHost(m, v.ledger, ps) ==> PlanValid(m, v.ledger, ps)
  {
    hide PlacementMemory;
    ByNodeEntries(ps);
    if CanHost(m, v.ledger, ps) {
      forall p | p in ps
        ensures p.nodeId in v.ledger.nodes && v.ledger.nodes[p.nodeId].alive
      {
        assert Room(v.ledger, p.nodeId, PlacementMemory(m, ByNode(ps)[p.nodeId]));
      }
    }
  }

  /** Preparing the next epoch disturbs nobody who serves an earlier one. */
  lemma FailureIsInvisible(v: View, w: View)
    requires CutOver(v)
    requires w == v.(engines := w.engines)
    requires w.engines == v.engines || OnlyPrepared(v.engines, w.engines, v.nextEpoch + 1)
    ensures Invisible(v, w) && CutOver(w)
  {
    if v.current.Some? {
      forall p | p in v.current.value.placements
        ensures Serving(w.engines, v.nextEpoch, p)
      {
        assert Serving(v.engines, v.nextEpoch, p);
        OtherEpochsKept(v.engines[p.nodeId], w.engines[p.nodeId], v.nextEpoch, v.nextEpoch + 1);
      }
    }
  }

  lemma OtherEpochsKept(s: EngineState, t: EngineState, epoch: int, changed: int)
    requires SameBut(s, t, changed) && epoch != changed
    ensures epoch in s.prepared <==> epoch in t.prepared
    ensures epoch in s.prepared ==> s.prepared[epoch] == t.prepared[epoch]
  {
    assert epoch in s.prepared <==> epoch in s.prepared - {changed};
    assert epoch in t.prepared <==> epoch in t.prepared - {changed};
    if epoch in s.prepared {
      assert (s.prepared - {changed})[epoch] == s.prepared[epoch];
      assert (t.prepared - {changed})[epoch] == t.prepared[epoch];
    }
  }

  lemma ActivationKeepsSources(e: map<NodeId, EngineState>, ps: seq<Placement>, epoch: int, current: Option<PipelinePlan>,
                               fallback: string)
    requires AllSourced(e, ps, epoch, current, fallback)
    ensures AllSourced(WithActive(e, ps, epoch), ps, epoch, current, fallback)
  {
  }

  lemma PrepareThenActivate(e: map<NodeId, EngineState>, f: map<NodeId, EngineState>, g: map<NodeId, EngineState>,
                            ps: seq<Placement>, epoch: int)
    requires OnlyPrepared(e, f, epoch) && OthersKept(e, f, ps) && AllReady(f, ps, epoch)
    requires g == WithActive(f, ps, epoch)
    ensures Activated(e, g, ps, epoch)
  {
    NodesOfMembers(ps);
  }

  lemma TopologyPlanIsValid(m: Model, l: Ledger, workers: seq<Worker>, ps: seq<Placement>)
    requires Tiles(ps, m.numLayers)
    requires forall w :: w in workers ==> w.nodeId in l.nodes && l.nodes[w.nodeId].alive
    requires OnAliveNodes(ps, workers)
    ensures PlanValid(m, l, ps)
  {
    hide Tiles;
    forall p | p in ps
      ensures p.nodeId in l.nodes && l.nodes[p.nodeId].alive
    {
      assert IsAliveWorker(p.nodeId, workers);
    }
  }

  lemma OnlyPreparedReflexive(e: map<NodeId, EngineState>, epoch: int)
    ensures OnlyPrepared(e, e, epoch)
  {
  }

  lemma ReachesCutOver(m: Model, v: View, w: View, ps: seq<Placement>, index: map<int, seq<Location>>)
    requires w.nextEpoch == v.nextEpoch + 1
    requires w.published == PipelinePlan(w.nextEpoch, ps) && w.current == Some(w.published)
    requires w.ledger == Committed(m, v.ledger, ps)
    requires IndexOf(index, v.store) && Copied(v.store, w.store, index, ps)
    requires Activated(v.engines, w.engines, ps, w.nextEpoch)
    ensures MovedTo(m, v, w, ps, index) && CutOver(w)
  {
  }

  lemma MovedToPublishes(m: Model, v: View, w: View, ps: seq<Placement>, index: map<int, seq<Location>>)
    requires MovedTo(m, v, w, ps, index)
    ensures w.current == Some(PipelinePlan(v.nextEpoch + 1, ps))
  {
  }

  ghost function Retired(e: map<NodeId, EngineState>, epoch: int): map<NodeId, EngineState> {
    map n | n in e :: RetireResult(e[n], epoch)
  }

  /** Draining any epoch but the current one leaves the plan being served in service. */
  lemma RetireKeepsCutOver(v: View, epoch: int)
    requires CutOver(v)
    requires v.current.Some? ==> v.current.value.epoch != epoch
    ensures CutOver(v.(engines := Retired(v.engines, epoch)))
  {
    if v.current.Some? {
      forall p | p in v.current.value.placements
        ensures Serving(Retired(v.engines, epoch), v.nextEpoch, p)
      {
        assert Serving(v.engines, v.nextEpoch, p);
      }
    }
  }

  lemma {:induction false} AllAlive(ws: seq<Worker>)
    requires forall w :: w in ws ==> w.alive
    ensures AliveOf(ws) == ws
  {
    if ws != [] {
      assert ws == ws[..|ws| - 1] + [ws[|ws| - 1]];
      AllAlive(ws[..|ws| - 1]);
    }
  }
}
