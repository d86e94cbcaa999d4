/** The cluster as a transition system: every await of the source is a step, so requests, reconfigurations and
    drains interleave freely. The steps use the same functions the classes are proved against. Activations travel by push
    and pull through the mailbox of the receiving node, or directly when the scheduler has no transport. */
module Protocol {
  import opened Types
  import opened ModelManagement
  import opened TorchEngine
  import opened PipelinePlacement
  import opened Coordinator
  import opened Recovery
  import Mailbox

  // ---------------------------------------------------------------- state

  /** Without a transport an activation is handed over in memory; otherwise it goes through mailboxes. */
  datatype Transport = InMemory | Mailboxes

  /** What never changes: the numbers, the model, the policies and the plan published before the first epoch. */
  datatype Config<!H> = Config(
    net: Net<H>, model: Model, recovery: RecoveryPolicy, transport: Transport, initial: PipelinePlan)

  /** Where the one reconfiguration that may be under way has got to. */
  datatype Phase =
    | Idle
    | Preparing(epoch: int, plan: seq<Placement>, done: nat)
    | Activating(epoch: int, plan: seq<Placement>, done: nat)

  /** A stage call that supplied a result. */
  datatype StageRun = StageRun(nodeId: NodeId, epoch: int, layers: seq<int>, retries: int)

  /** How far the hand-over to the attempt's node has got. */
  datatype Handover = Arrived | ToSend | Sent

  datatype Status<+H> = Running | Done(result: GenerationResult<H>) | Failed

  /** One call of handle_request: what was published when it was routed, and how far it has got. */
  datatype Ticket<+H> = Ticket(
    req: Request, plan: PipelinePlan, healthy: set<NodeId>, tasks: seq<Task<H>>,
    index: nat, attempt: Task<H>, handover: Handover, ran: seq<StageRun>, status: Status<H>)

  /** Node and tag: what an activation in a mailbox is filed under. */
  type Key = (NodeId, string)

  /** A push that has been sent but not yet handled by its receiver is in flight. */
  datatype State<+H> = State(
    phase: Phase, current: Option<PipelinePlan>, nextEpoch: int, published: PipelinePlan,
    ledger: Ledger, engines: map<NodeId, EngineState>, draining: set<int>,
    applied: map<int, seq<Placement>>, tickets: map<nat, Ticket<H>>, nextTaskId: nat,
    inFlight: seq<Envelope<H>>, boxes: map<Key, Envelope<H>>)

  datatype Step =
    | RouteRequest(ticket: nat, req: Request, healthy: set<NodeId>)
    | Deliver(ticket: nat)
    | PushActivation(ticket: nat)
    | PullActivation(ticket: nat)
    | LoseActivation(ticket: nat)
    | RunStage(ticket: nat)
    | MailArrives(message: nat)
    | MailIsLost(message: nat)
    | BeginPlan(placements: seq<Placement>)
    | PrepareNext(fetched: bool)
    | CommitPlan
    | ActivateNext
    | PublishPlan
    | BeginDrain(epoch: int)
    | RetireOn(epoch: int, nodeId: NodeId)
    | AttachNode(nodeId: NodeId, totalLayers: int)
    | NodeEvent(op: LedgerOp)

  function FirstEpoch<H>(c: Config<H>): int {
    if c.initial.epoch > 0 then c.initial.epoch else 0
  }

  function Init<H>(c: Config<H>): State<H> {
    State(Idle, None, FirstEpoch(c), c.initial, Ledger(map[], map[], map[]), map[], {}, map[], map[], 0, [], map[])
  }

  // ---------------------------------------------------------------- request steps

  /** route_request and the start of handle_request. */
  function RouteStep<H>(c: Config<H>, s: State<H>, id: nat, req: Request, healthy: set<NodeId>): Option<State<H>> {
    if id in s.tickets then None
    else
      var tasks: seq<Task<H>> := TasksFor(Route(s.published.placements, healthy), s.published.epoch, req, s.nextTaskId);
      if tasks == [] then Some(s)
      else
        var t := Ticket(req, s.published, healthy, tasks, 0, tasks[0], Arrived, [], Running);
        Some(s.(tickets := s.tickets[id := t], nextTaskId := s.nextTaskId + |tasks|))
  }

  /** for_destination: the activation addressed to the node of the next stage. */
  function Delivery<H>(t: Ticket<H>): Envelope<H>
    requires t.attempt.activation.Some?
  {
    t.attempt.activation.value.(destination := Some(t.attempt.nodeId))
  }

  function KeyOf<H>(e: Envelope<H>): Key {
    (if e.destination.Some? then e.destination.value else "",
     Mailbox.Tag(e.requestId, e.epoch, e.stageIndex, e.source, e.destination))
  }

  /** The stage gets this activation to work on. */
  function Handed<H>(t: Ticket<H>, e: Envelope<H>): Ticket<H> {
    t.(attempt := t.attempt.(activation := Some(e)), handover := Arrived)
  }

  /** The loop of _run_pipeline after a stage has answered. */
  function Advanced<H>(t: Ticket<H>, r: GenerationResult<H>, run: StageRun): Ticket<H>
    requires t.index < |t.tasks|
  {
    var next := t.index + 1;
    var moved := t.(index := next, ran := t.ran + [run]);
    if next == |t.tasks| then moved.(status := Done(r))
    else moved.(attempt := t.tasks[next].(activation := Some(r.activation)),
                handover := if t.tasks[t.index].nodeId != t.tasks[next].nodeId then ToSend else Arrived)
  }

  /** One engine call of _run_task for the current attempt: an answer, a retry, or no result. */
  function Attempted<H>(c: Config<H>, t: Ticket<H>, engines: map<NodeId, EngineState>, freshId: nat): Ticket<H>
    requires t.index < |t.tasks|
  {
    var a := t.attempt;
    if a.nodeId !in engines then t.(status := Failed)
    else
      match GenerateResult(c.net, a.nodeId, engines[a.nodeId], a)
      case Success(r) =>
        var stage := engines[a.nodeId].prepared[a.epoch];
        Advanced(t, r, StageRun(a.nodeId, a.epoch, stage.layers, a.retries))
      case Failure(_) =>
        match Recovered(c.recovery, a, freshId)
        case None => t.(status := Failed)
        case Some(retry) => t.(attempt := retry)
  }

  predicate Live<H>(s: State<H>, id: nat) {
    id in s.tickets && s.tickets[id].status.Running? && s.tickets[id].index < |s.tickets[id].tasks|
  }

  predicate IsTicketStep(step: Step) {
    step.Deliver? || step.PushActivation? || step.PullActivation? || step.LoseActivation? || step.RunStage?
  }

  /** Steps of requests and their mail, as opposed to those of the controller and the nodes. */
  predicate IsRequestStep(step: Step) {
    IsTicketStep(step) || step.RouteRequest? || step.MailArrives? || step.MailIsLost?
  }

  function TicketStep<H>(c: Config<H>, s: State<H>, step: Step): Option<State<H>>
    requires IsTicketStep(step)
  {
    if !Live(s, step.ticket) then None
    else
      var t := s.tickets[step.ticket];
      match step
      case Deliver(id) =>
        if c.transport.InMemory? && t.handover.ToSend? && t.attempt.activation.Some? then
          Some(s.(tickets := s.tickets[id := Handed(t, Delivery(t))]))
        else None
      case PushActivation(id) =>
        if c.transport.Mailboxes? && t.handover.ToSend? && t.attempt.activation.Some? then
          Some(s.(tickets := s.tickets[id := t.(handover := Sent)], inFlight := s.inFlight + [Delivery(t)]))
        else None
      case PullActivation(id) =>
        if c.transport.Mailboxes? && t.handover.Sent? && t.attempt.activation.Some? then Some(PullResult(s, id, t)) else None
      case LoseActivation(id) =>
        if !t.handover.Arrived? then Some(s.(tickets := s.tickets[id := t.(status := Failed)])) else None
      case RunStage(id) =>
        if !t.handover.Arrived? then None
        else Some(s.(tickets := s.tickets[id := Attempted(c, t, s.engines, s.nextTaskId)], nextTaskId := s.nextTaskId + 1))
  }

  /** pull: whatever is filed under the tag is taken; a miss, or an envelope for another node, ends the request. */
  function PullResult<H>(s: State<H>, id: nat, t: Ticket<H>): State<H>
    requires t.attempt.activation.Some?
  {
    var k := KeyOf(Delivery(t));
    if k !in s.boxes then s.(tickets := s.tickets[id := t.(status := Failed)])
    else if s.boxes[k].destination != Some(t.attempt.nodeId) then
      s.(tickets := s.tickets[id := t.(status := Failed)], boxes := s.boxes - {k})
    else s.(tickets := s.tickets[id := Handed(t, s.boxes[k])], boxes := s.boxes - {k})
  }

  /** A pull takes what is filed and the request goes on with it; with nothing there, or something for another node, the
      request ends. */
  lemma PullOutcome<H>(c: Config<H>, s: State<H>, id: nat)
    requires TicketStep(c, s, PullActivation(id)).Some?
    ensures var k, t, u := KeyOf(Delivery(s.tickets[id])), s.tickets[id], TicketStep(c, s, PullActivation(id)).value;
      && k !in u.boxes && (forall j :: j != k ==> (j in u.boxes <==> j in s.boxes) && (j in s.boxes ==> u.boxes[j] == s.boxes[j]))
      && id in u.tickets
      && (u.tickets[id].status.Running? <==> k in s.boxes && s.boxes[k].destination == Some(t.attempt.nodeId))
      && (u.tickets[id].status.Running? ==>
        u.tickets[id].handover.Arrived? && u.tickets[id].attempt.activation == Some(s.boxes[k]))
      && (!u.tickets[id].status.Running? ==> u.tickets[id].status.Failed?)
  {
    hide KeyOf, Delivery;
  }

  /** A stage call that gives no result ends the request, unless a retry is left: then a recovery task takes its place. */
  lemma NoResultOutcome<H>(c: Config<H>, t: Ticket<H>, engines: map<NodeId, EngineState>, freshId: nat)
    requires t.index < |t.tasks| && t.status.Running?
    requires t.attempt.nodeId in engines ==> GenerateResult(c.net, t.attempt.nodeId, engines[t.attempt.nodeId], t.attempt).Failure?
    ensures var u := Attempted(c, t, engines, freshId);
      && u.index == t.index && u.ran == t.ran && (u.status.Running? || u.status.Failed?)
      && (u.status.Running? <==> t.attempt.nodeId in engines && t.attempt.retries < c.recovery.maxRetries)
      && (u.status.Running? ==> u.attempt.retries == t.attempt.retries + 1 && u.attempt.taskId == freshId && u.attempt.epoch == 0)
  {
    hide GenerateResult;
  }

  /** The receiver handles a push, in no particular order, or the push never gets there. */
  function MailStep<H>(s: State<H>, i: nat, arrives: bool): Option<State<H>> {
    if i >= |s.inFlight| then None
    else
      var rest := s.inFlight[..i] + s.inFlight[i + 1..];
      Some(s.(inFlight := rest, boxes := if arrives then s.boxes[KeyOf(s.inFlight[i]) := s.inFlight[i]] else s.boxes))
  }

  /** A push that arrives replaces what is filed under its key; one that is lost changes no mailbox. */
  lemma MailOutcome<H>(s: State<H>, i: nat, arrives: bool)
    requires i < |s.inFlight|
    ensures var u := MailStep(s, i, arrives).value;
      && multiset(u.inFlight) == multiset(s.inFlight) - multiset{s.inFlight[i]}
      && (!arrives ==> u.boxes == s.boxes)
      && (arrives ==>
        && KeyOf(s.inFlight[i]) in u.boxes && u.boxes[KeyOf(s.inFlight[i])] == s.inFlight[i]
        && u.boxes - {KeyOf(s.inFlight[i])} == s.boxes - {KeyOf(s.inFlight[i])})
  {
    hide KeyOf;
    assert s.inFlight == s.inFlight[..i] + [s.inFlight[i]] + s.inFlight[i + 1..];
  }

  // ---------------------------------------------------------------- reconfiguration steps

  /** apply_plan up to its first await. */
  ghost function BeginStep<H>(c: Config<H>, s: State<H>, ps: seq<Placement>): Option<State<H>> {
    if s.phase.Idle? && PlanValid(c.model, s.ledger, ps) then Some(s.(phase := Preparing(s.nextEpoch + 1, ps, 0))) else None
  }

  /** One prepare call; `fetched` says whether the node got its parameters. A failure ends the attempt. */
  function PrepareStep<H>(c: Config<H>, s: State<H>, fetched: bool): Option<State<H>> {
    if !s.phase.Preparing? || s.phase.done >= |s.phase.plan| then None
    else
      var p := s.phase.plan[s.phase.done];
      if p.layerRange.None? || p.nodeId !in s.engines || !fetched then Some(s.(phase := Idle))
      else
        var a := AssignmentFor(s.current, p, s.phase.epoch);
        match PrepareResult(p.nodeId, s.engines[p.nodeId], a, ModelSource(a, "model-store"))
        case Failure(_) => Some(s.(phase := Idle))
        case Success(e) =>
          Some(s.(engines := s.engines[p.nodeId := e], phase := Preparing(s.phase.epoch, s.phase.plan, s.phase.done + 1)))
  }

  /** apply_pipeline_plan, which runs without an await. */
  ghost function CommitStep<H>(c: Config<H>, s: State<H>): Option<State<H>> {
    if !s.phase.Preparing? || s.phase.done != |s.phase.plan| then None
    else if CanHost(c.model, s.ledger, s.phase.plan) then
      Some(s.(ledger := Committed(c.model, s.ledger, s.phase.plan), phase := Activating(s.phase.epoch, s.phase.plan, 0)))
    else Some(s.(phase := Idle))
  }

  function ActivateStep<H>(s: State<H>): Option<State<H>> {
    if !s.phase.Activating? || s.phase.done >= |s.phase.plan| then None
    else
      var n := s.phase.plan[s.phase.done].nodeId;
      if n !in s.engines then Some(s.(phase := Idle))
      else
        match ActivateResult(s.engines[n], s.phase.epoch)
        case Failure(_) => Some(s.(phase := Idle))
        case Success(e) => Some(s.(engines := s.engines[n := e], phase := Activating(s.phase.epoch, s.phase.plan, s.phase.done + 1)))
  }

  function PublishStep<H>(s: State<H>): Option<State<H>> {
    if !s.phase.Activating? || s.phase.done != |s.phase.plan| then None
    else
      var plan := PipelinePlan(s.phase.epoch, s.phase.plan);
      Some(s.(phase := Idle, current := Some(plan), published := plan, nextEpoch := plan.epoch,
              applied := s.applied[plan.epoch := plan.placements]))
  }

  // ---------------------------------------------------------------- drains and nodes

  /** The check of drain_old_epoch, made once before its first await. */
  function DrainStep<H>(s: State<H>, epoch: int): Option<State<H>> {
    if s.current.Some? && s.current.value.epoch == epoch then None else Some(s.(draining := s.draining + {epoch}))
  }

  /** One retire call of a drain that passed the check. It may come at any later time, and more than once. */
  function RetireStep<H>(s: State<H>, epoch: int, n: NodeId): Option<State<H>> {
    if epoch !in s.draining || n !in s.engines then None
    else Some(s.(engines := s.engines[n := RetireResult(s.engines[n], epoch)]))
  }

  function AttachStep<H>(s: State<H>, n: NodeId, totalLayers: int): Option<State<H>> {
    if n in s.engines then None
    else Some(s.(engines := s.engines[n := EngineState(if totalLayers > 1 then totalLayers else 1, map[], None)]))
  }

  ghost function Next<H>(c: Config<H>, s: State<H>, step: Step): Option<State<H>> {
    match step
    case RouteRequest(id, req, healthy) => RouteStep(c, s, id, req, healthy)
    case Deliver(_) => TicketStep(c, s, step)
    case PushActivation(_) => TicketStep(c, s, step)
    case PullActivation(_) => TicketStep(c, s, step)
    case LoseActivation(_) => TicketStep(c, s, step)
    case RunStage(_) => TicketStep(c, s, step)
    case MailArrives(i) => MailStep(s, i, true)
    case MailIsLost(i) => MailStep(s, i, false)
    case BeginPlan(ps) => BeginStep(c, s, ps)
    case PrepareNext(fetched) => PrepareStep(c, s, fetched)
    case CommitPlan => CommitStep(c, s)
    case ActivateNext => ActivateStep(s)
    case PublishPlan => PublishStep(s)
    case BeginDrain(e) => DrainStep(s, e)
    case RetireOn(e, n) => RetireStep(s, e, n)
    case AttachNode(n, l) => AttachStep(s, n, l)
    case NodeEvent(op) => if op.ApplyPlan? then None else Some(s.(ledger := StepLedger(c.model, s.ledger, op)))
  }

  /** Requests change nothing but requests and mail. */
  lemma RequestStepFrame<H>(c: Config<H>, s: State<H>, step: Step)
    requires IsRequestStep(step) && Next(c, s, step).Some?
    ensures var u := Next(c, s, step).value;
      && u == s.(tickets := u.tickets, nextTaskId := u.nextTaskId, inFlight := u.inFlight, boxes := u.boxes)
      && (step.MailArrives? || step.MailIsLost? ==> u.tickets == s.tickets)
  {
    hide Attempted, KeyOf, TasksFor, Route, Delivery;
  }

  /** The state after a sequence of steps, if every one of them was possible. */
  ghost function Run<H>(c: Config<H>, s: State<H>, steps: seq<Step>): Option<State<H>> {
    if steps == [] then Some(s)
    else
      var before := Run(c, s, steps[..|steps| - 1]);
      if before.None? then None else Next(c, before.value, steps[|steps| - 1])
  }

  lemma RunOneMore<H>(c: Config<H>, s: State<H>, steps: seq<Step>, u: State<H>, step: Step)
    requires Run(c, s, steps) == Some(u)
    ensures Run(c, s, steps + [step]) == Next(c, u, step)
  {
    assert (steps + [step])[..|steps + [step]| - 1] == steps;
  }

  lemma {:induction false} RunConcat<H>(c: Config<H>, s: State<H>, first: seq<Step>, u: State<H>, second: seq<Step>)
    requires Run(c, s, first) == Some(u)
    ensures Run(c, s, first + second) == Run(c, u, second)
  {
    hide Next;
    if second == [] {
      assert first + second == first;
    } else {
      var n := |second| - 1;
      RunConcat(c, s, first, u, second[..n]);
      assert (first + second)[..|first + second| - 1] == first + second[..n];
    }
  }

  lemma OneStep<H>(c: Config<H>, s: State<H>, step: Step)
    ensures Run(c, s, [step]) == Next(c, s, step)
  {
    hide Next;
    assert Run(c, s, []) == Some(s);
    RunOneMore(c, s, [], s, step);
    assert [] + [step] == [step];
  }

  lemma ThreeSteps<H>(c: Config<H>, s0: State<H>, s1: State<H>, s2: State<H>, a: Step, b: Step, d: Step)
    requires Next(c, s0, a) == Some(s1) && Next(c, s1, b) == Some(s2)
    ensures Run(c, s0, [a, b, d]) == Next(c, s2, d)
  {
    hide Next;
    OneStep(c, s0, a);
    RunOneMore(c, s0, [a], s1, b);
    RunOneMore(c, s0, [a] + [b], s2, d);
    assert [a, b, d] == [a] + [b] + [d];
  }
}
