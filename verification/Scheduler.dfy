/** Running a request: one stage after the other, with retries (core/task_scheduler.py, TaskScheduler).
    One request at a time; interleavings with other requests and with reconfigurations are in Protocol. */
module Scheduler {
  import opened Types
  import opened Sorting
  import opened Coverage
  import opened TorchEngine
  import opened PipelinePlacement
  import opened Coordinator
  import opened Recovery

  datatype Outcome<+H> = NoNode | Lost | NoResult | Answered(result: GenerationResult<H>)

  type States = map<NodeId, EngineState>

  // ---------------------------------------------------------------- one task and its retries

  function RetriesLeft<H>(policy: RecoveryPolicy, t: Task<H>): nat {
    if t.retries < policy.maxRetries then policy.maxRetries - t.retries else 0
  }

  /** What the chain of attempts that starts with t returns. */
  function TaskOutcome<H>(net: Net<H>, states: States, policy: RecoveryPolicy, t: Task<H>, freshId: nat)
    : Option<GenerationResult<H>>
    decreases RetriesLeft(policy, t)
  {
    if t.nodeId !in states then None
    else
      match GenerateResult(net, t.nodeId, states[t.nodeId], t)
      case Success(g) => Some(g)
      case Failure(_) =>
        match Recovered(policy, t, freshId)
        case None => None
        case Some(retry) => TaskOutcome(net, states, policy, retry, freshId + 1)
  }

  /** What one attempt decides. */
  lemma OneAttempt<H>(net: Net<H>, states: States, policy: RecoveryPolicy, t: Task<H>, freshId: nat)
    ensures t.nodeId !in states ==> TaskOutcome(net, states, policy, t, freshId).None?
    ensures t.nodeId in states ==>
      match GenerateResult(net, t.nodeId, states[t.nodeId], t)
      case Success(g) => TaskOutcome(net, states, policy, t, freshId) == Some(g)
      case Failure(_) =>
        var retry := Recovered(policy, t, freshId);
        TaskOutcome(net, states, policy, t, freshId)
          == if retry.None? then None else TaskOutcome(net, states, policy, retry.value, freshId + 1)
  {
  }

  /** Coordinator epochs start at 1, so no node ever has epoch 0 prepared. */
  ghost predicate NoEpochZero(states: States) {
    forall n :: n in states ==> 0 !in states[n].prepared
  }

  lemma {:induction false} EpochZeroNeverAnswers<H>(net: Net<H>, states: States, policy: RecoveryPolicy, t: Task<H>, freshId: nat)
    requires NoEpochZero(states) && t.epoch == 0
    ensures TaskOutcome(net, states, policy, t, freshId).None?
    decreases RetriesLeft(policy, t)
  {
    if t.nodeId in states && t.retries < policy.maxRetries {
      EpochZeroNeverAnswers(net, states, policy, Recovered(policy, t, freshId).value, freshId + 1);
    }
  }

  /** Retrying never helps: a task is answered exactly when its first attempt is. */
  lemma OnlyTheFirstAttemptAnswers<H>(net: Net<H>, states: States, policy: RecoveryPolicy, t: Task<H>, freshId: nat)
    requires NoEpochZero(states)
    ensures TaskOutcome(net, states, policy, t, freshId)
         == if t.nodeId in states && GenerateResult(net, t.nodeId, states[t.nodeId], t).Success?
            then Some(GenerateResult(net, t.nodeId, states[t.nodeId], t).value) else None
  {
    if t.nodeId in states && t.retries < policy.maxRetries {
      EpochZeroNeverAnswers(net, states, policy, Recovered(policy, t, freshId).value, freshId + 1);
    }
  }

  // ---------------------------------------------------------------- a pipeline of tasks

  function TaskKey<H>(t: Task<H>): int {
    if t.layerRange.Some? then t.layerRange.value.start else t.stageIndex
  }

  predicate TaskLe<H>(t: Task<H>, u: Task<H>) {
    TaskKey(t) < TaskKey(u) || (TaskKey(t) == TaskKey(u) && t.stageIndex <= u.stageIndex)
  }

  /** In the order of the pipeline a task whose layers start earlier comes first, and between equal starts, or tasks without
      layers, the earlier stage does. */
  lemma TasksByStart<H(!new)>(ts: seq<Task<H>>, i: nat, j: nat)
    requires i < j < |ts|
    ensures var t, u := Sort(ts, TaskLe)[i], Sort(ts, TaskLe)[j];
      && (t.layerRange.Some? && u.layerRange.Some? ==>
        t.layerRange.value.start < u.layerRange.value.start
        || (t.layerRange.value.start == u.layerRange.value.start && t.stageIndex <= u.stageIndex))
      && (t.layerRange.None? && u.layerRange.None? ==> t.stageIndex <= u.stageIndex)
  {
    assert TotalPreorder<Task<H>>(TaskLe);
    SortSorts(ts, TaskLe);
    assert TaskLe(Sort(ts, TaskLe)[i], Sort(ts, TaskLe)[j]);
  }

  /** The node is active in the task's epoch with exactly the task's range prepared. */
  predicate Accepts<H>(states: States, t: Task<H>) {
    && t.nodeId in states
    && t.epoch in states[t.nodeId].prepared
    && states[t.nodeId].active == Some(t.epoch)
    && t.layerRange == Some(states[t.nodeId].prepared[t.epoch].assignment.layerRange)
  }

  /** Stage k accepts, and is reached over a hop between two different nodes on which nothing is lost. */
  ghost predicate StagePasses<H>(states: States, ts: seq<Task<H>>, arrives: nat -> bool, k: nat)
    requires k < |ts|
  {
    && Accepts(states, ts[k])
    && (k > 0 ==> ts[k - 1].nodeId != ts[k].nodeId && arrives(k))
  }

  ghost predicate PassesUpTo<H>(states: States, ts: seq<Task<H>>, arrives: nat -> bool, n: nat)
    requires n <= |ts|
  {
    forall k :: 0 <= k < n ==> StagePasses(states, ts, arrives, k)
  }

  ghost predicate PipelinePasses<H>(states: States, ts: seq<Task<H>>, arrives: nat -> bool) {
    PassesUpTo(states, ts, arrives, |ts|)
  }

  lemma OneMorePasses<H>(states: States, ts: seq<Task<H>>, arrives: nat -> bool, n: nat)
    requires n < |ts|
    ensures PassesUpTo(states, ts, arrives, 0)
    ensures PassesUpTo(states, ts, arrives, n + 1) <==> PassesUpTo(states, ts, arrives, n) && StagePasses(states, ts, arrives, n)
    ensures PipelinePasses(states, ts, arrives) ==> PassesUpTo(states, ts, arrives, n + 1)
  {
  }

  lemma PipelinePassesWhenAllDo<H>(states: States, ts: seq<Task<H>>, arrives: nat -> bool, n: nat)
    requires n <= |ts| && PassesUpTo(states, ts, arrives, n)
    ensures n == |ts| ==> PipelinePasses(states, ts, arrives)
  {
  }

  /** All tasks belong to one request and one epoch. */
  ghost predicate OneRequest<H>(ts: seq<Task<H>>, req: Request, epoch: int) {
    forall k :: 0 <= k < |ts| ==>
      ts[k].requestId == req.requestId && ts[k].prompt == req.prompt && ts[k].maxTokens == req.maxTokens
      && ts[k].epoch == epoch
  }

  function TaskIds<H>(t: Task<H>): seq<int> {
    if t.layerRange.None? then [] else LayerIds(t.layerRange.value.start, t.layerRange.value.end)
  }

  /** The layers the tasks run, in order. */
  function LayersOfTasks<H>(ts: seq<Task<H>>): seq<int> {
    if ts == [] then [] else LayersOfTasks(ts[..|ts| - 1]) + TaskIds(ts[|ts| - 1])
  }

  ghost function HiddenOf<H>(net: Net<H>, ts: seq<Task<H>>, req: Request): H {
    RunLayers(net, LayersOfTasks(ts), (net.embed)(req.prompt))
  }

  /** The task as the loop sends it: numbered, and carrying what the stage before it produced. */
  function Numbered<H>(t: Task<H>, index: nat, count: nat, a: Option<Envelope<H>>): Task<H> {
    t.(stageIndex := index, stageCount := count, activation := a)
  }

  /** What the loop carries from stage to stage. */
  ghost predicate CarriesHidden<H>(net: Net<H>, ts: seq<Task<H>>, k: nat, req: Request, epoch: int, a: Option<Envelope<H>>)
    requires k <= |ts|
  {
    k > 0 ==>
      && a.Some? && a.value.requestId == req.requestId && a.value.epoch == epoch && a.value.destination.None?
      && a.value.payload == HiddenOf(net, ts[..k], req)
  }

  lemma LayersOfNextTask<H>(ts: seq<Task<H>>, k: nat)
    requires k < |ts|
    ensures LayersOfTasks(ts[..k + 1]) == LayersOfTasks(ts[..k]) + TaskIds(ts[k])
  {
    assert ts[..k + 1][..k] == ts[..k];
  }

  /** One stage of the loop, when the activation got there: whether it answers decides whether the stage passes, and its
      answer carries the next hidden state. */
  lemma StageOfPipeline<H>(net: Net<H>, states: States, ts: seq<Task<H>>, k: nat, req: Request, epoch: int,
                           a: Option<Envelope<H>>, sent: Task<H>, arrives: nat -> bool)
    requires k < |ts| && OneRequest(ts, req, epoch) && CarriesHidden(net, ts, k, req, epoch, a)
    requires forall n :: n in states ==> EngineOk(n, states[n])
    requires var hop := k > 0 && ts[k - 1].nodeId != ts[k].nodeId;
      sent == Numbered(ts[k], k, |ts|, if hop then Some(a.value.(destination := Some(ts[k].nodeId))) else a)
    ensures var ok := sent.nodeId in states && GenerateResult(net, sent.nodeId, states[sent.nodeId], sent).Success?;
      && (StagePasses(states, ts, arrives, k) <==> ok && (k > 0 ==> arrives(k)))
      && (ok && k > 0 ==> ts[k - 1].nodeId != ts[k].nodeId)
      && (ok ==>
        var g := GenerateResult(net, sent.nodeId, states[sent.nodeId], sent).value;
        && CarriesHidden(net, ts, k + 1, req, epoch, Some(g.activation))
        && g.requestId == req.requestId
        && (k + 1 == |ts| ==> g.text == (net.readout)(HiddenOf(net, ts, req), req.maxTokens)))
  {
    hide RunLayers, LayersOfTasks, EngineOk;
    if sent.nodeId in states && GenerateResult(net, sent.nodeId, states[sent.nodeId], sent).Success? {
      assert EngineOk(sent.nodeId, states[sent.nodeId]);
      GenerateRunsTaskRange(net, sent.nodeId, states[sent.nodeId], sent);
      assert StageInput(net, sent) == HiddenOf(net, ts[..k], req) by {
        if k == 0 {
          NoLayersYet(net, ts, req);
        }
      }
      LayersOfNextTask(ts, k);
      RunLayersAppend(net, LayersOfTasks(ts[..k]), TaskIds(ts[k]), (net.embed)(req.prompt));
      assert ts[..|ts|] == ts;
    }
  }

  lemma LostHopFails<H>(states: States, ts: seq<Task<H>>, arrives: nat -> bool, k: nat)
    requires 0 < k < |ts| && !arrives(k)
    ensures !StagePasses(states, ts, arrives, k)
  {
  }

  lemma NoLayersYet<H>(net: Net<H>, ts: seq<Task<H>>, req: Request)
    ensures HiddenOf(net, ts[..0], req) == (net.embed)(req.prompt)
  {
    assert ts[..0] == [];
  }

  // ---------------------------------------------------------------- routed tasks

  lemma {:induction false} LayersOfRoutedTasks<H>(route: seq<Placement>, epoch: int, req: Request, firstId: nat, k: nat)
    requires k <= |route|
    ensures LayersOfTasks(TasksFor<H>(route, epoch, req, firstId)[..k]) == LayersOf(route[..k])
  {
    hide LayerIds;
    if k > 0 {
      LayersOfRoutedTasks<H>(route, epoch, req, firstId, k - 1);
      LayersOfNextTask(TasksFor<H>(route, epoch, req, firstId), k - 1);
      assert route[..k][..k - 1] == route[..k - 1];
      assert TaskIds(TasksFor<H>(route, epoch, req, firstId)[k - 1]) == IdsOf(route[k - 1]);
    }
  }

  /** The tasks of a route are already in the order the pipeline sorts them into. */
  lemma RoutedTasksInOrder<H(!new)>(ps: seq<Placement>, healthy: set<NodeId>, epoch: int, req: Request, firstId: nat)
    ensures Sort(TasksFor<H>(Route(ps, healthy), epoch, req, firstId), TaskLe) == TasksFor<H>(Route(ps, healthy), epoch, req, firstId)
  {
    RouteMembers(ps, healthy);
    var route := Route(ps, healthy);
    var ts := TasksFor<H>(route, epoch, req, firstId);
    forall i, j | 0 <= i < j < |ts|
      ensures TaskLe(ts[i], ts[j])
    {
      assert StartLe(route[i], route[j]);
      assert route[i] in route && route[j] in route;
    }
    SortOfSorted(ts, TaskLe);
  }

  /** Every usable node of the plan runs the published epoch with the plan's range. */
  ghost predicate RouteServed(states: States, epoch: int, route: seq<Placement>) {
    forall p :: p in route ==> Serving(states, epoch, p)
  }

  lemma RoutedTasksPass<H>(states: States, route: seq<Placement>, epoch: int, req: Request, firstId: nat, arrives: nat -> bool)
    requires forall n :: n in states ==> EngineOk(n, states[n])
    requires DistinctNodes(route)
    ensures PipelinePasses(states, TasksFor<H>(route, epoch, req, firstId), arrives)
       <==> RouteServed(states, epoch, route) && forall k :: 0 < k < |route| ==> arrives(k)
  {
    var ts := TasksFor<H>(route, epoch, req, firstId);
    forall k | 0 <= k < |route|
      ensures StagePasses(states, ts, arrives, k) <==> Serving(states, epoch, route[k]) && (k > 0 ==> arrives(k))
    {
      if Accepts(states, ts[k]) {
        assert EngineOk(route[k].nodeId, states[route[k].nodeId]);
      }
    }
    if PipelinePasses(states, ts, arrives) {
      forall p | p in route
        ensures Serving(states, epoch, p)
      {
        var k :| 0 <= k < |route| && route[k] == p;
        assert StagePasses(states, ts, arrives, k);
      }
      assert forall k :: 0 < k < |route| ==> StagePasses(states, ts, arrives, k);
    }
  }

  /** What the tasks of a request amount to, in terms of the route they were made from. */
  lemma RoutedTasks<H(!new)>(net: Net<H>, states: States, ps: seq<Placement>, healthy: set<NodeId>, epoch: int, req: Request,
                       firstId: nat, arrives: nat -> bool)
    requires forall n :: n in states ==> EngineOk(n, states[n])
    requires DistinctNodes(ps)
    ensures var route := Route(ps, healthy);
      var ts := TasksFor<H>(route, epoch, req, firstId);
      && Sort(ts, TaskLe) == ts && OneRequest(ts, req, epoch)
      && (PipelinePasses(states, ts, arrives)
          <==> RouteServed(states, epoch, route) && forall k :: 0 < k < |route| ==> arrives(k))
      && HiddenOf(net, ts, req) == RunLayers(net, LayersOf(route), (net.embed)(req.prompt))
  {
    hide Serving, Accepts, Sort, LayersOf, Route, RunLayers, LayersOfTasks, PipelinePasses;
    var route := Route(ps, healthy);
    RoutedTasksInOrder<H>(ps, healthy, epoch, req, firstId);
    RouteNodesDistinct(ps, healthy);
    RoutedTasksPass<H>(states, route, epoch, req, firstId, arrives);
    LayersOfRoutedTasks<H>(route, epoch, req, firstId, |route|);
    var ts := TasksFor<H>(route, epoch, req, firstId);
    assert route[..|route|] == route && ts[..|ts|] == ts;
  }

  // ---------------------------------------------------------------- the scheduler

  class TaskScheduler<H(!new)> {
    const nodeMgr: NodeManager
    const placement: LayeredPipelinePlacement
    const recovery: RecoveryPolicy
    const net: Net<H>
    var engines: map<NodeId, TorchLayeredEngine<H>>
    var results: map<string, Outcome<H>>
    var nextTaskId: nat

    constructor (nodeMgr: NodeManager, placement: LayeredPipelinePlacement, recovery: RecoveryPolicy, net: Net<H>)
      ensures this.nodeMgr == nodeMgr && this.placement == placement && this.recovery == recovery && this.net == net
      ensures engines == map[] && results == map[] && nextTaskId == 0
    {
      this.nodeMgr := nodeMgr;
      this.placement := placement;
      this.recovery := recovery;
      this.net := net;
      engines := map[];
      results := map[];
      nextTaskId := 0;
    }

    method AttachEngine(engine: TorchLayeredEngine<H>)
      requires engine.net == net
      modifies this`engines
      ensures engines == old(engines)[engine.nodeId := engine]
      ensures old(Valid()) && EngineOk(engine.nodeId, engine.State()) && 0 !in engine.prepared ==> Valid()
    {
      engines := engines[engine.nodeId := engine];
    }

    /** Engines are filed under their own node and run the same model, with nothing prepared under epoch 0. */
    ghost predicate Valid()
      reads this`engines, engines.Values
    {
      && (forall n :: n in engines ==> engines[n].nodeId == n && engines[n].net == net)
      && (forall n :: n in engines ==> EngineOk(n, engines[n].State()) && 0 !in engines[n].prepared)
    }

    ghost function EngineStates(): States
      reads this`engines, engines.Values
    {
      map n | n in engines :: engines[n].State()
    }

    lemma StatesAreTheEngines()
      requires Valid()
      ensures EngineStates().Keys == engines.Keys
      ensures forall n :: n in engines ==> EngineStates()[n] == engines[n].State()
      ensures NoEpochZero(EngineStates()) && forall n :: n in EngineStates() ==> EngineOk(n, EngineStates()[n])
    {
    }

    /** Pending tasks carry ids already given out, and this one is not among them. */
    ghost predicate Fresh(id: nat)
      reads this, nodeMgr
    {
      && id < nextTaskId
      && forall n, p :: n in nodeMgr.nodes && p in nodeMgr.nodes[n].pendingTasks ==> p < nextTaskId && p != id
    }

    lemma FreshInAnyOrder(ts: seq<Task<H>>, us: seq<Task<H>>)
      requires multiset(ts) == multiset(us)
      requires forall k :: 0 <= k < |ts| ==> Fresh(ts[k].taskId)
      ensures forall k :: 0 <= k < |us| ==> Fresh(us[k].taskId)
    {
      MembersOfEqualMultisets(ts, us);
      forall k | 0 <= k < |us|
        ensures Fresh(us[k].taskId)
      {
        assert us[k] in ts;
        var j :| 0 <= j < |ts| && ts[j] == us[k];
      }
    }

    ghost predicate IdsIssued()
      reads this, nodeMgr
    {
      forall n, p :: n in nodeMgr.nodes && p in nodeMgr.nodes[n].pendingTasks ==> p < nextTaskId
    }

    method AddPending(n: NodeId, id: nat)
      modifies nodeMgr
      ensures nodeMgr.nodes == WithPending(old(nodeMgr.nodes), n, id)
    {
      if n in nodeMgr.nodes {
        var node := nodeMgr.nodes[n];
        nodeMgr.nodes := nodeMgr.nodes[n := node.(pendingTasks := node.pendingTasks + {id})];
      }
    }

    method DiscardPending(n: NodeId, id: nat)
      modifies nodeMgr
      ensures nodeMgr.nodes == WithoutPending(old(nodeMgr.nodes), n, id)
    {
      if n in nodeMgr.nodes {
        var node := nodeMgr.nodes[n];
        nodeMgr.nodes := nodeMgr.nodes[n := node.(pendingTasks := node.pendingTasks - {id})];
      }
    }

    /** _run_task: at most as many engine calls as retries are left plus one, and the node table ends as it began. */
    method RunTask(task: Task<H>) returns (r: Option<GenerationResult<H>>, ghost calls: nat)
      requires Valid() && Fresh(task.taskId)
      modifies this`nextTaskId, nodeMgr
      ensures r == TaskOutcome(net, EngineStates(), recovery, task, old(nextTaskId))
      ensures calls <= RetriesLeft(recovery, task) + 1
      ensures nodeMgr.nodes == old(nodeMgr.nodes)
      ensures nextTaskId >= old(nextTaskId)
      decreases RetriesLeft(recovery, task)
    {
      hide GenerateResult, EngineOk, TaskOutcome, EngineStates;
      StatesAreTheEngines();
      ghost var states := EngineStates();
      OneAttempt(net, states, recovery, task, nextTaskId);
      if task.nodeId !in engines {
        return None, 0;
      }
      AddPending(task.nodeId, task.taskId);
      var outcome := engines[task.nodeId].Generate(task);
      calls := 1;
      match outcome {
        case Success(g) =>
          r := Some(g);
        case Failure(_) =>
          var retry := Recovered(recovery, task, nextTaskId);
          nextTaskId := nextTaskId + 1;
          r := None;
          if retry.Some? {
            ghost var more;
            r, more := RunTask(retry.value);
            assert EngineStates() == states;
            calls := calls + more;
          }
      }
      AddThenDiscard(old(nodeMgr.nodes), task.nodeId, task.taskId);
      DiscardPending(task.nodeId, task.taskId);
    }

    /** One turn of the loop of _run_pipeline: hand the activation over, then run the task. */
    method RunStage(ordered: seq<Task<H>>, k: nat, activation: Option<Envelope<H>>, arrives: nat -> bool,
                    ghost req: Request, ghost epoch: int)
      returns (r: Outcome<H>)
      requires Valid() && k < |ordered| && Fresh(ordered[k].taskId)
      requires OneRequest(ordered, req, epoch) && CarriesHidden(net, ordered, k, req, epoch, activation)
      modifies this`nextTaskId, nodeMgr
      ensures nodeMgr.nodes == old(nodeMgr.nodes) && nextTaskId >= old(nextTaskId)
      ensures EngineStates() == old(EngineStates())
      ensures r.Answered? <==> StagePasses(EngineStates(), ordered, arrives, k)
      ensures r.Answered? ==>
        && r.result.requestId == req.requestId
        && CarriesHidden(net, ordered, k + 1, req, epoch, Some(r.result.activation))
        && (k + 1 == |ordered| ==> r.result.text == (net.readout)(HiddenOf(net, ordered, req), req.maxTokens))
      ensures r.Lost? ==> k > 0 && !arrives(k)
      ensures !r.NoNode?
    {
      hide HiddenOf, Accepts, TaskOutcome, EngineStates, GenerateResult, StagePasses;
      ghost var states := EngineStates();
      StatesAreTheEngines();
      var task := Numbered(ordered[k], k, |ordered|, activation);
      if k > 0 && ordered[k - 1].nodeId != task.nodeId {
        if !arrives(k) {
          LostHopFails(states, ordered, arrives, k);
          return Lost;
        }
        task := Numbered(ordered[k], k, |ordered|, Some(activation.value.(destination := Some(task.nodeId))));
      }
      StageOfPipeline(net, states, ordered, k, req, epoch, activation, task, arrives);
      OnlyTheFirstAttemptAnswers(net, states, recovery, task, nextTaskId);
      ghost var calls;
      var outcome;
      outcome, calls := RunTask(task);
      assert EngineStates() == states;
      r := if outcome.None? then NoResult else Answered(outcome.value);
    }

    /** _run_pipeline: answers exactly when every stage accepts and every hop arrives, with the layers of all the tasks
        applied in order; a lost activation is reported as such. `arrives(k)` says whether the hop to stage k succeeds. */
    method RunPipeline(tasks: seq<Task<H>>, arrives: nat -> bool, ghost req: Request, ghost epoch: int)
      returns (r: Outcome<H>)
      requires Valid() && tasks != []
      requires OneRequest(Sort(tasks, TaskLe), req, epoch)
      requires forall k :: 0 <= k < |tasks| ==> Fresh(tasks[k].taskId)
      modifies this`nextTaskId, nodeMgr
      ensures nodeMgr.nodes == old(nodeMgr.nodes) && nextTaskId >= old(nextTaskId)
      ensures r.Answered? <==> PipelinePasses(old(EngineStates()), Sort(tasks, TaskLe), arrives)
      ensures r.Answered? ==>
        && r.result.requestId == req.requestId
        && r.result.text == (net.readout)(HiddenOf(net, Sort(tasks, TaskLe), req), req.maxTokens)
      ensures r.Lost? ==> exists k :: 0 < k < |tasks| && !arrives(k)
      ensures !r.NoNode?
    {
      hide HiddenOf, EngineStates, StagePasses, PassesUpTo, PipelinePasses, Sort;
      var ordered := Sort(tasks, TaskLe);
      FreshInAnyOrder(tasks, ordered);
      var activation: Option<Envelope<H>> := None;
      ghost var states := EngineStates();
      OneMorePasses(states, ordered, arrives, 0);
      r := NoResult;
      for k := 0 to |ordered|
        invariant nodeMgr.nodes == old(nodeMgr.nodes) && nextTaskId >= old(nextTaskId)
        invariant EngineStates() == states
        invariant forall j :: 0 <= j < |ordered| ==> Fresh(ordered[j].taskId)
        invariant CarriesHidden(net, ordered, k, req, epoch, activation)
        invariant PassesUpTo(states, ordered, arrives, k)
        invariant k > 0 ==> r.Answered? && r.result.requestId == req.requestId
        invariant k == |ordered| ==>
          && r.result.text == (net.readout)(HiddenOf(net, ordered, req), req.maxTokens)
          && PipelinePasses(states, ordered, arrives)
      {
        OneMorePasses(states, ordered, arrives, k);
        r := RunStage(ordered, k, activation, arrives, req, epoch);
        if !r.Answered? {
          return;
        }
        activation := Some(r.result.activation);
        PipelinePassesWhenAllDo(states, ordered, arrives, k + 1);
      }
    }

    /** handle_request: answered exactly when there is a route, all of it is in service, and every hop arrives. A lost hop
        raises, so nothing is recorded then. */
    method HandleRequest(req: Request, healthy: set<NodeId>, arrives: nat -> bool) returns (r: Outcome<H>)
      requires Valid() && IdsIssued() && DistinctNodes(placement.placements)
      modifies this`nextTaskId, this`results, nodeMgr
      ensures nodeMgr.nodes == old(nodeMgr.nodes)
      ensures var route := Route(placement.placements, healthy);
        && (r.NoNode? <==> route == [])
        && (r.Answered? <==>
          && route != [] && RouteServed(old(EngineStates()), placement.pipelineEpoch, route)
          && forall k :: 0 < k < |route| ==> arrives(k))
        && (r.Answered? ==>
          r.result.text == (net.readout)(RunLayers(net, LayersOf(route), (net.embed)(req.prompt)), req.maxTokens))
        && (r.Lost? ==> exists k :: 0 < k < |route| && !arrives(k))
      ensures results == if r.NoNode? || r.Lost? then old(results) else old(results)[req.requestId := r]
    {
      hide Serving, Accepts, Sort, LayersOf, Route, PipelinePasses, HiddenOf, RouteServed, RunLayers, DistinctNodes, EngineStates;
      var tasks: seq<Task<H>> := placement.Place(healthy, req, nextTaskId);
      if tasks == [] {
        return NoNode;
      }
      nextTaskId := nextTaskId + |tasks|;
      StatesAreTheEngines();
      RoutedTasks(net, EngineStates(), placement.placements, healthy, placement.pipelineEpoch, req, old(nextTaskId), arrives);
      r := RunPipeline(tasks, arrives, req, placement.pipelineEpoch);
      if !r.Lost? {
        results := results[req.requestId := r];
      }
    }
  }

  // ---------------------------------------------------------------- pending tasks

  function WithPending(nodes: map<NodeId, NodeState>, n: NodeId, id: nat): map<NodeId, NodeState> {
    if n !in nodes then nodes else nodes[n := nodes[n].(pendingTasks := nodes[n].pendingTasks + {id})]
  }

  function WithoutPending(nodes: map<NodeId, NodeState>, n: NodeId, id: nat): map<NodeId, NodeState> {
    if n !in nodes then nodes else nodes[n := nodes[n].(pendingTasks := nodes[n].pendingTasks - {id})]
  }

  lemma AddThenDiscard(nodes: map<NodeId, NodeState>, n: NodeId, id: nat)
    requires n in nodes ==> id !in nodes[n].pendingTasks
    ensures WithoutPending(WithPending(nodes, n, id), n, id) == nodes
  {
    if n in nodes {
      assert nodes[n].pendingTasks + {id} - {id} == nodes[n].pendingTasks;
    }
  }
}
