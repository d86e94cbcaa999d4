/** Safety of the protocol over every run: results come from whole plans, never from a mixture. */
module ProtocolSafety {
  import opened Types
  import opened Coverage
  import opened ModelManagement
  import opened TorchEngine
  import opened PipelinePlacement
  import opened Coordinator
  import opened Recovery
  import opened Protocol

  // ---------------------------------------------------------------- invariants

  /** Applied epochs are numbered after the first one, each with a plan that covers the model; what is published is the last. */
  ghost predicate PlansOk<H>(c: Config<H>, s: State<H>) {
    && s.nextEpoch >= FirstEpoch(c)
    && (forall e :: e in s.applied ==> FirstEpoch(c) < e <= s.nextEpoch && Tiles(s.applied[e], c.model.numLayers))
    && (s.current.Some? ==>
      && s.published == s.current.value && s.current.value.epoch == s.nextEpoch
      && s.nextEpoch in s.applied && s.applied[s.nextEpoch] == s.published.placements)
    && (s.current.None? ==> s.published == c.initial && s.nextEpoch == FirstEpoch(c))
    && (!s.phase.Idle? ==>
      && s.phase.epoch == s.nextEpoch + 1 && Tiles(s.phase.plan, c.model.numLayers) && s.phase.done <= |s.phase.plan|)
  }

  /** Nodes only ever prepare epochs the coordinator has issued. */
  ghost predicate EnginesOk<H>(c: Config<H>, s: State<H>) {
    forall n :: n in s.engines ==>
      && EngineOk(n, s.engines[n])
      && forall e :: e in s.engines[n].prepared ==> FirstEpoch(c) < e <= s.nextEpoch + 1
  }

  ghost function RouteOf<H>(t: Ticket<H>): seq<Placement> {
    Route(t.plan.placements, t.healthy)
  }

  /** Either the plan was applied as this epoch, or it is the one from before the first epoch. */
  ghost predicate PlanKnown<H>(c: Config<H>, s: State<H>, plan: PipelinePlan) {
    || plan == c.initial
    || (plan.epoch in s.applied && s.applied[plan.epoch] == plan.placements)
  }

  ghost predicate TasksFit<H>(t: Ticket<H>) {
    && |t.tasks| == |RouteOf(t)| > 0
    && forall i :: 0 <= i < |t.tasks| ==>
      t.tasks[i] == TaskFor(RouteOf(t)[i], i, |t.tasks|, t.plan.epoch, t.req, t.tasks[i].taskId)
  }

  /** The attempt is the routed task, carrying an activation unless it is the first, or a recovery task of epoch 0. */
  ghost predicate AttemptOk<H>(t: Ticket<H>)
    requires TasksFit(t) && t.index < |t.tasks|
  {
    && (!t.handover.Arrived? ==> t.attempt.retries == 0 && t.index > 0)
    && if t.attempt.retries > 0 then t.attempt.epoch == 0
       else
         && t.attempt == t.tasks[t.index].(activation := t.attempt.activation)
         && (t.index > 0 ==> t.attempt.activation.Some?)
  }

  ghost predicate RanOk<H>(t: Ticket<H>)
    requires TasksFit(t) && t.index <= |t.tasks|
  {
    && |t.ran| == t.index
    && forall k :: 0 <= k < t.index ==>
      t.ran[k] == StageRun(RouteOf(t)[k].nodeId, t.plan.epoch, IdsOf(RouteOf(t)[k]), 0)
  }

  ghost predicate TicketOk<H>(c: Config<H>, t: Ticket<H>) {
    && TasksFit(t)
    && t.index <= |t.tasks|
    && RanOk(t)
    && (t.index > 0 ==> t.plan.epoch > FirstEpoch(c))
    && (t.status.Running? ==> t.index < |t.tasks| && AttemptOk(t))
    && (t.status.Done? ==> t.index == |t.tasks| && t.status.result.requestId == t.req.requestId)
  }

  ghost predicate TicketsOk<H>(c: Config<H>, s: State<H>) {
    forall id :: id in s.tickets ==> TicketOk(c, s.tickets[id]) && PlanKnown(c, s, s.tickets[id].plan)
  }

  ghost predicate Safe<H>(c: Config<H>, s: State<H>) {
    PlansOk(c, s) && EnginesOk(c, s) && TicketsOk(c, s)
  }

  // ---------------------------------------------------------------- one stage call

  lemma LayersOfNext(route: seq<Placement>, k: nat)
    requires k < |route|
    ensures LayersOf(route[..k + 1]) == LayersOf(route[..k]) + IdsOf(route[k])
  {
    assert route[..k + 1][..k] == route[..k];
  }

  /** A task of epoch 0 is refused by every node, because the coordinator never issues that epoch. */
  lemma EpochZeroRefused<H>(c: Config<H>, s: State<H>, n: NodeId, a: Task<H>)
    requires EnginesOk(c, s) && n in s.engines && a.epoch == 0
    ensures GenerateResult(c.net, n, s.engines[n], a).Failure?
  {
    assert a.epoch !in s.engines[n].prepared;
  }

  /** What a stage that answers has run. */
  lemma AnswerRanRoutedRange<H>(c: Config<H>, s: State<H>, t: Ticket<H>)
    requires EnginesOk(c, s) && TicketOk(c, t) && t.status.Running?
    requires t.attempt.nodeId in s.engines
    requires GenerateResult(c.net, t.attempt.nodeId, s.engines[t.attempt.nodeId], t.attempt).Success?
    ensures t.attempt.retries == 0
    ensures t.attempt.epoch == t.plan.epoch > FirstEpoch(c)
    ensures t.attempt.epoch in s.engines[t.attempt.nodeId].prepared
    ensures t.attempt == t.tasks[t.index].(activation := t.attempt.activation)
    ensures s.engines[t.attempt.nodeId].prepared[t.attempt.epoch].layers == IdsOf(RouteOf(t)[t.index])
    ensures GenerateResult(c.net, t.attempt.nodeId, s.engines[t.attempt.nodeId], t.attempt).value.activation.payload
         == RunLayers(c.net, IdsOf(RouteOf(t)[t.index]), StageInput(c.net, t.attempt))
  {
    hide RouteOf, RanOk;
    var a := t.attempt;
    var e := s.engines[a.nodeId];
    if a.epoch == 0 {
      EpochZeroRefused(c, s, a.nodeId, a);
    }
    GenerateRunsTaskRange(c.net, a.nodeId, e, a);
    assert StageOk(a.nodeId, e, a.epoch, e.prepared[a.epoch]);
    assert t.tasks[t.index] == TaskFor(RouteOf(t)[t.index], t.index, |t.tasks|, t.plan.epoch, t.req, t.tasks[t.index].taskId);
  }

  /** The loop of _run_pipeline keeps the ticket on its plan and in layer order. */
  lemma AdvanceKeepsTicketOk<H>(c: Config<H>, t: Ticket<H>, r: GenerationResult<H>, run: StageRun)
    requires TicketOk(c, t) && t.status.Running?
    requires t.plan.epoch > FirstEpoch(c)
    requires run == StageRun(RouteOf(t)[t.index].nodeId, t.plan.epoch, IdsOf(RouteOf(t)[t.index]), 0)
    requires r.requestId == t.req.requestId
    ensures TicketOk(c, Advanced(t, r, run))
  {
    hide Route, IdsOf, LayersOf, RunLayers;
    var u := Advanced(t, r, run);
    assert TasksFit(u) && RouteOf(u) == RouteOf(t);
    assert RanOk(u) by {
      assert u.ran == t.ran + [run];
    }
    var next := t.index + 1;
    if next < |t.tasks| {
      assert t.tasks[next] == TaskFor(RouteOf(t)[next], next, |t.tasks|, t.plan.epoch, t.req, t.tasks[next].taskId);
      assert AttemptOk(u);
    }
  }

  lemma RunningHasTask<H>(c: Config<H>, t: Ticket<H>)
    requires TicketOk(c, t) && t.status.Running?
    ensures t.index < |t.tasks| && t.attempt.retries >= 0
  {
  }

  lemma AnswerKeepsTicketOk<H>(c: Config<H>, s: State<H>, t: Ticket<H>, freshId: nat)
    requires EnginesOk(c, s) && TicketOk(c, t) && t.status.Running?
    requires t.attempt.nodeId in s.engines
    requires GenerateResult(c.net, t.attempt.nodeId, s.engines[t.attempt.nodeId], t.attempt).Success?
    ensures TicketOk(c, Attempted(c, t, s.engines, freshId))
    ensures Attempted(c, t, s.engines, freshId).plan == t.plan
  {
    hide EnginesOk, RanOk, Route;
    var a, k := t.attempt, t.index;
    AnswerRanRoutedRange(c, s, t);
    assert t.tasks[k] == TaskFor(RouteOf(t)[k], k, |t.tasks|, t.plan.epoch, t.req, t.tasks[k].taskId);
    AdvanceKeepsTicketOk(c, t, GenerateResult(c.net, a.nodeId, s.engines[a.nodeId], a).value,
      StageRun(a.nodeId, a.epoch, s.engines[a.nodeId].prepared[a.epoch].layers, a.retries));
  }

  lemma AttemptKeepsTicketOk<H>(c: Config<H>, s: State<H>, t: Ticket<H>, freshId: nat)
    requires EnginesOk(c, s) && TicketOk(c, t) && t.status.Running? && t.handover.Arrived?
    ensures TicketOk(c, Attempted(c, t, s.engines, freshId))
    ensures Attempted(c, t, s.engines, freshId).plan == t.plan
  {
    hide EnginesOk, TicketOk, Advanced, GenerateResult;
    var a := t.attempt;
    assert t.index < |t.tasks| by {
      RunningHasTask(c, t);
    }
    if a.nodeId !in s.engines {
      OtherAttemptKeepsTicketOk(c, t, freshId);
    } else {
      var g := GenerateResult(c.net, a.nodeId, s.engines[a.nodeId], a);
      if g.Success? {
        AnswerKeepsTicketOk(c, s, t, freshId);
      } else {
        OtherAttemptKeepsTicketOk(c, t, freshId);
      }
    }
  }

  lemma OtherAttemptKeepsTicketOk<H>(c: Config<H>, t: Ticket<H>, freshId: nat)
    requires TicketOk(c, t) && t.status.Running?
    ensures TicketOk(c, t.(status := Failed))
    ensures t.handover.Arrived? && Recovered(c.recovery, t.attempt, freshId).Some? ==>
      TicketOk(c, t.(attempt := Recovered(c.recovery, t.attempt, freshId).value))
  {
  }

  lemma HandoverKeepsTicketOk<H>(c: Config<H>, t: Ticket<H>, e: Envelope<H>)
    requires TicketOk(c, t) && t.status.Running? && !t.handover.Arrived?
    ensures TicketOk(c, Handed(t, e)) && TicketOk(c, t.(handover := Sent))
  {
  }

  // ---------------------------------------------------------------- every step

  lemma TicketStepKeepsTicket<H>(c: Config<H>, s: State<H>, step: Step)
    requires EnginesOk(c, s) && TicketsOk(c, s) && IsTicketStep(step) && TicketStep(c, s, step).Some?
    ensures var u, id := TicketStep(c, s, step).value, step.ticket;
      && id in s.tickets && id in u.tickets && u.tickets == s.tickets[id := u.tickets[id]]
      && TicketOk(c, u.tickets[id]) && u.tickets[id].plan == s.tickets[id].plan
  {
    hide TicketOk, EnginesOk, Attempted, Delivery, KeyOf, PlanKnown;
    var id := step.ticket;
    var t := s.tickets[id];
    match step {
      case Deliver(_) => HandoverKeepsTicketOk(c, t, Delivery(t));
      case PushActivation(_) => HandoverKeepsTicketOk(c, t, Delivery(t));
      case PullActivation(_) =>
        OtherAttemptKeepsTicketOk(c, t, 0);
        if KeyOf(Delivery(t)) in s.boxes {
          HandoverKeepsTicketOk(c, t, s.boxes[KeyOf(Delivery(t))]);
        }
      case LoseActivation(_) => OtherAttemptKeepsTicketOk(c, t, 0);
      case RunStage(_) => AttemptKeepsTicketOk(c, s, t, s.nextTaskId);
    }
  }

  lemma TicketStepSafe<H>(c: Config<H>, s: State<H>, step: Step)
    requires Safe(c, s) && IsTicketStep(step)
    requires Next(c, s, step).Some?
    ensures Safe(c, Next(c, s, step).value)
  {
    hide TicketsOk, TicketOk, EnginesOk, Tiles, TicketStep, RouteStep, MailStep, PrepareStep, CommitStep, ActivateStep, PublishStep;
    var u := Next(c, s, step).value;
    TicketStepKeepsTicket(c, s, step);
    RequestStepFrame(c, s, step);
    OneTicketChanged(c, s, u, step.ticket);
    EnginesFrame(c, s, u);
  }

  lemma OneTicketChanged<H>(c: Config<H>, s: State<H>, u: State<H>, id: nat)
    requires TicketsOk(c, s) && id in s.tickets && id in u.tickets && u.tickets == s.tickets[id := u.tickets[id]]
    requires u.applied == s.applied && TicketOk(c, u.tickets[id]) && u.tickets[id].plan == s.tickets[id].plan
    ensures TicketsOk(c, u)
  {
    hide TicketOk;
  }

  lemma RouteStepSafe<H>(c: Config<H>, s: State<H>, id: nat, req: Request, healthy: set<NodeId>)
    requires Safe(c, s) && RouteStep(c, s, id, req, healthy).Some?
    ensures Safe(c, RouteStep(c, s, id, req, healthy).value)
  {
    hide TicketOk, EnginesOk, Tiles, TasksFor;
    var u := RouteStep(c, s, id, req, healthy).value;
    var tasks: seq<Task<H>> := TasksFor(Route(s.published.placements, healthy), s.published.epoch, req, s.nextTaskId);
    if tasks != [] {
      var t := Ticket(req, s.published, healthy, tasks, 0, tasks[0], Arrived, [], Running);
      NewTicketOk(c, s, t);
      assert u.tickets == s.tickets[id := t];
      assert PlanKnown(c, s, t.plan);
      EnginesFrame(c, s, u);
    }
  }

  lemma NewTicketOk<H>(c: Config<H>, s: State<H>, t: Ticket<H>)
    requires t.plan == s.published
    requires t.tasks == TasksFor(RouteOf(t), t.plan.epoch, t.req, s.nextTaskId) != []
    requires t.index == 0 && t.attempt == t.tasks[0] && t.handover.Arrived? && t.ran == [] && t.status.Running?
    ensures TicketOk(c, t)
  {
    hide Route;
  }

  /** Steps that touch neither tickets nor what has been applied keep the tickets in order. */
  lemma TicketsFrame<H>(c: Config<H>, s: State<H>, u: State<H>)
    requires TicketsOk(c, s) && u.tickets == s.tickets
    requires forall e :: e in s.applied ==> e in u.applied && u.applied[e] == s.applied[e]
    ensures TicketsOk(c, u)
  {
    hide TicketOk;
  }

  lemma PrepareStepSafe<H>(c: Config<H>, s: State<H>, fetched: bool)
    requires Safe(c, s) && PrepareStep(c, s, fetched).Some?
    ensures Safe(c, PrepareStep(c, s, fetched).value)
  {
    hide TicketsOk, Tiles;
    var u := PrepareStep(c, s, fetched).value;
    var p := s.phase.plan[s.phase.done];
    if u.phase.Preparing? {
      var a := AssignmentFor(s.current, p, s.phase.epoch);
      RuntimeStepsKeepEngineOk(p.nodeId, s.engines[p.nodeId], a, ModelSource(a, "model-store"), 0);
      assert EnginesOk(c, u);
    }
    assert TicketsOk(c, u) by {
      TicketsFrame(c, s, u);
    }
  }

  lemma ActivateStepSafe<H>(c: Config<H>, s: State<H>)
    requires Safe(c, s) && ActivateStep(s).Some?
    ensures Safe(c, ActivateStep(s).value)
  {
    hide TicketsOk, Tiles;
    var u := ActivateStep(s).value;
    assert TicketsOk(c, u) by {
      TicketsFrame(c, s, u);
    }
  }

  lemma PublishStepSafe<H>(c: Config<H>, s: State<H>)
    requires Safe(c, s) && PublishStep(s).Some?
    ensures Safe(c, PublishStep(s).value)
  {
    hide TicketsOk, Tiles;
    var u := PublishStep(s).value;
    assert TicketsOk(c, u) by {
      TicketsFrame(c, s, u);
    }
  }

  lemma ControlStepSafe<H>(c: Config<H>, s: State<H>, step: Step)
    requires Safe(c, s) && Next(c, s, step).Some?
    requires step.BeginPlan? || step.CommitPlan? || step.BeginDrain? || step.NodeEvent?
    ensures Safe(c, Next(c, s, step).value)
  {
    hide TicketsOk, Tiles, EnginesOk, CanHost, Committed, StepLedger, RouteStep, TicketStep, MailStep;
    var u := Next(c, s, step).value;
    assert TicketsOk(c, u) by {
      TicketsFrame(c, s, u);
    }
    assert EnginesOk(c, u) by {
      EnginesFrame(c, s, u);
    }
  }

  lemma MailStepSafe<H>(c: Config<H>, s: State<H>, step: Step)
    requires Safe(c, s) && Next(c, s, step).Some? && (step.MailArrives? || step.MailIsLost?)
    ensures Safe(c, Next(c, s, step).value)
  {
    hide Next, TicketsOk, Tiles, EnginesOk;
    RequestStepFrame(c, s, step);
    TicketsFrame(c, s, Next(c, s, step).value);
    EnginesFrame(c, s, Next(c, s, step).value);
  }

  lemma EnginesFrame<H>(c: Config<H>, s: State<H>, u: State<H>)
    requires EnginesOk(c, s) && u.engines == s.engines && u.nextEpoch == s.nextEpoch
    ensures EnginesOk(c, u)
  {
  }

  lemma EngineStepSafe<H>(c: Config<H>, s: State<H>, step: Step)
    requires Safe(c, s) && Next(c, s, step).Some?
    requires step.RetireOn? || step.AttachNode?
    ensures Safe(c, Next(c, s, step).value)
  {
    hide TicketsOk, Tiles, PlansOk, RetireStep, AttachStep;
    var u := Next(c, s, step).value;
    match step {
      case RetireOn(e, n) =>
        RetireIsLocal(s, e, n);
        RuntimeStepsKeepEngineOk(n, s.engines[n], StageAssignment(e, n, LayerRange(0, 0), None), "", e);
      case AttachNode(n, l) =>
        AttachIsLocal(s, n, l);
    }
    TicketsFrame(c, s, u);
    PlansFrame(c, s, u);
  }

  lemma RetireIsLocal<H>(s: State<H>, e: int, n: NodeId)
    requires RetireStep(s, e, n).Some?
    ensures n in s.engines
    ensures RetireStep(s, e, n).value == s.(engines := s.engines[n := RetireResult(s.engines[n], e)])
  {
  }

  lemma AttachIsLocal<H>(s: State<H>, n: NodeId, l: int)
    requires AttachStep(s, n, l).Some?
    ensures AttachStep(s, n, l).value
         == s.(engines := s.engines[n := EngineState(if l > 1 then l else 1, map[], None)])
  {
  }

  lemma PlansFrame<H>(c: Config<H>, s: State<H>, u: State<H>)
    requires PlansOk(c, s) && u.current == s.current && u.nextEpoch == s.nextEpoch && u.published == s.published
    requires u.applied == s.applied && u.phase == s.phase
    ensures PlansOk(c, u)
  {
  }

  lemma StepSafe<H>(c: Config<H>, s: State<H>, step: Step)
    requires Safe(c, s) && Next(c, s, step).Some?
    ensures Safe(c, Next(c, s, step).value)
  {
    hide Safe;
    match step
    case RouteRequest(id, req, healthy) => RouteStepSafe(c, s, id, req, healthy);
    case Deliver(_) => TicketStepSafe(c, s, step);
    case PushActivation(_) => TicketStepSafe(c, s, step);
    case PullActivation(_) => TicketStepSafe(c, s, step);
    case LoseActivation(_) => TicketStepSafe(c, s, step);
    case RunStage(_) => TicketStepSafe(c, s, step);
    case PrepareNext(fetched) => PrepareStepSafe(c, s, fetched);
    case ActivateNext => ActivateStepSafe(c, s);
    case PublishPlan => PublishStepSafe(c, s);
    case RetireOn(_, _) => EngineStepSafe(c, s, step);
    case AttachNode(_, _) => EngineStepSafe(c, s, step);
    case BeginPlan(_) => ControlStepSafe(c, s, step);
    case CommitPlan => ControlStepSafe(c, s, step);
    case BeginDrain(_) => ControlStepSafe(c, s, step);
    case NodeEvent(_) => ControlStepSafe(c, s, step);
    case MailArrives(_) => MailStepSafe(c, s, step);
    case MailIsLost(_) => MailStepSafe(c, s, step);
  }

  /** Every state the protocol can reach is safe, whatever the interleaving. */
  lemma {:induction false} RunsAreSafe<H>(c: Config<H>, steps: seq<Step>, s: State<H>)
    requires Run(c, Init(c), steps) == Some(s)
    ensures Safe(c, s)
  {
    hide Next;
    if steps != [] {
      var before := Run(c, Init(c), steps[..|steps| - 1]).value;
      RunsAreSafe(c, steps[..|steps| - 1], before);
      StepSafe(c, before, steps[|steps| - 1]);
    }
  }

  // ---------------------------------------------------------------- what a caller sees

  /** The layers that produced a result, in the order they ran. */
  function LayersRun(ran: seq<StageRun>): seq<int> {
    if ran == [] then [] else LayersRun(ran[..|ran| - 1]) + ran[|ran| - 1].layers
  }

  lemma {:induction false} LayersRunOfRoute<H>(t: Ticket<H>, k: nat)
    requires TasksFit(t) && t.index <= |t.tasks| && RanOk(t) && k <= t.index
    ensures LayersRun(t.ran[..k]) == LayersOf(RouteOf(t)[..k])
  {
    hide Route, IdsOf;
    if k > 0 {
      LayersRunOfRoute(t, k - 1);
      assert t.ran[..k][..k - 1] == t.ran[..k - 1];
      LayersOfNext(RouteOf(t), k - 1);
    }
  }

  /** A request that returns a result, in any interleaving with reconfigurations and drains and whatever happens to its
      activations on the way: one applied epoch supplied every stage, each of them a stage of that plan, and no recovery
      task supplied any. The layers that ran are the whole model, once each and in order, exactly when every node of the
      plan was healthy at routing. */
  lemma ResultsComeFromOnePlan<H>(c: Config<H>, steps: seq<Step>, s: State<H>, id: nat)
    requires Run(c, Init(c), steps) == Some(s)
    requires id in s.tickets && s.tickets[id].status.Done?
    ensures var t := s.tickets[id];
      && t.plan.epoch in s.applied && s.applied[t.plan.epoch] == t.plan.placements
      && (forall run :: run in t.ran ==> run.epoch == t.plan.epoch && run.retries == 0 && IsStageOf(run, t.plan))
      && t.status.result.requestId == t.req.requestId
      && (LayersRun(t.ran) == LayerIds(0, c.model.numLayers)
          <==> forall p :: p in t.plan.placements ==> p.nodeId in t.healthy)
  {
    RunsAreSafe(c, steps, s);
    var t := s.tickets[id];
    assert TicketOk(c, t) && PlanKnown(c, s, t.plan);
    FinishedTicket(c, t);
    RouteIsCompleteIff(t.plan.placements, t.healthy, c.model.numLayers) by {
      assert PlansOk(c, s);
    }
  }

  lemma FinishedTicket<H>(c: Config<H>, t: Ticket<H>)
    requires TicketOk(c, t) && t.status.Done?
    ensures t.plan.epoch > FirstEpoch(c)
    ensures LayersRun(t.ran) == LayersOf(RouteOf(t))
    ensures t.status.result.requestId == t.req.requestId
    ensures forall run :: run in t.ran ==> run.epoch == t.plan.epoch && run.retries == 0 && IsStageOf(run, t.plan)
  {
    hide Route, LayersOf, LayersRun;
    LayersRunOfRoute(t, t.index);
    assert t.ran[..t.index] == t.ran && RouteOf(t)[..t.index] == RouteOf(t);
    RouteMembers(t.plan.placements, t.healthy);
    forall run | run in t.ran
      ensures run.epoch == t.plan.epoch && run.retries == 0 && IsStageOf(run, t.plan)
    {
      var k :| 0 <= k < |t.ran| && t.ran[k] == run;
      assert RouteOf(t)[k] in RouteOf(t);
    }
  }

  /** The stage call ran exactly the layers the plan gives that node. */
  ghost predicate IsStageOf(run: StageRun, plan: PipelinePlan) {
    exists p :: p in plan.placements && p.nodeId == run.nodeId && IdsOf(p) == run.layers
  }

  /** No recovery task is ever answered, on any node, in any reachable state (policies drop the epoch when they recover). */
  lemma RecoveryTasksNeverAnswered<H>(c: Config<H>, steps: seq<Step>, s: State<H>, t: Task<H>, freshId: nat, n: NodeId)
    requires Run(c, Init(c), steps) == Some(s)
    requires n in s.engines && Recovered(c.recovery, t, freshId).Some?
    ensures GenerateResult(c.net, n, s.engines[n], Recovered(c.recovery, t, freshId).value).Failure?
  {
    RunsAreSafe(c, steps, s);
    EpochZeroRefused(c, s, n, Recovered(c.recovery, t, freshId).value);
  }
}
