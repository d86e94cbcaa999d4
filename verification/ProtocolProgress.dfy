/** A request routed while the published plan is in service, and left undisturbed, is answered with the whole model. */
module ProtocolProgress {
  import opened Types
  import opened Coverage
  import opened TorchEngine
  import opened PipelinePlacement
  import opened Coordinator
  import opened Protocol
  import opened ProtocolSafety
  import opened ProtocolAnswers
  import opened ProtocolCutOver

  /** A hand-over: in memory, or a push, its arrival behind `waiting` others, and a pull. */
  function HopSteps(transport: Transport, waiting: nat, id: nat): seq<Step> {
    match transport
    case InMemory => [Deliver(id)]
    case Mailboxes => [PushActivation(id), MailArrives(waiting), PullActivation(id)]
  }

  /** Route, run the first stage, then hand over to and run each further stage: the steps of one undisturbed request. */
  function ServeSteps(transport: Transport, waiting: nat, id: nat, req: Request, healthy: set<NodeId>, stages: nat): seq<Step> {
    if stages == 0 then [RouteRequest(id, req, healthy)]
    else if stages == 1 then ServeSteps(transport, waiting, id, req, healthy, 0) + [RunStage(id)]
    else ServeSteps(transport, waiting, id, req, healthy, stages - 1) + HopSteps(transport, waiting, id) + [RunStage(id)]
  }

  /** The ticket is about to hand its next stage exactly what that stage checks for. */
  ghost predicate Ready<H>(t: Ticket<H>) {
    && t.status.Running? && t.index < |t.tasks|
    && t.attempt.retries == 0
    && t.handover == (if t.index > 0 then ToSend else Arrived)
    && (t.index > 0 ==>
      && t.attempt.activation.Some?
      && t.attempt.activation.value.requestId == t.req.requestId
      && t.attempt.activation.value.epoch == t.plan.epoch)
  }

  ghost predicate Served<H>(engines: map<NodeId, EngineState>, t: Ticket<H>) {
    forall p :: p in t.plan.placements ==> Serving(engines, t.plan.epoch, p)
  }

  lemma RouteIsServed<H>(engines: map<NodeId, EngineState>, t: Ticket<H>, k: nat)
    requires Served(engines, t) && k < |RouteOf(t)|
    ensures Serving(engines, t.plan.epoch, RouteOf(t)[k])
  {
    RouteMembers(t.plan.placements, t.healthy);
    assert RouteOf(t)[k] in RouteOf(t);
  }

  /** A stage in service passes every check of a ready ticket. */
  lemma ReadyStageAnswers<H>(c: Config<H>, engines: map<NodeId, EngineState>, t: Ticket<H>)
    requires TicketOk(c, t) && Ready(t) && Served(engines, t)
    ensures var u := if t.index > 0 then Handed(t, Delivery(t)) else t;
      && u.attempt.nodeId in engines
      && GenerateResult(c.net, u.attempt.nodeId, engines[u.attempt.nodeId], u.attempt).Success?
  {
    hide Route, LayersOf, RunLayers, RanOk;
    var k := t.index;
    RouteIsServed(engines, t, k);
    assert t.tasks[k] == TaskFor(RouteOf(t)[k], k, |t.tasks|, t.plan.epoch, t.req, t.tasks[k].taskId);
  }

  /** After the answer the ticket is done, or ready for the stage after. */
  lemma AnswerLeavesReady<H>(c: Config<H>, engines: map<NodeId, EngineState>, t: Ticket<H>, freshId: nat)
    requires TicketOk(c, t) && t.status.Running? && t.attempt.retries == 0
    requires t.attempt.nodeId in engines
    requires GenerateResult(c.net, t.attempt.nodeId, engines[t.attempt.nodeId], t.attempt).Success?
    requires DistinctNodes(RouteOf(t))
    ensures var u := Attempted(c, t, engines, freshId);
      && u.plan == t.plan && u.req == t.req && u.healthy == t.healthy && u.tasks == t.tasks
      && u.index == t.index + 1
      && if u.index == |u.tasks| then u.status.Done? else Ready(u)
  {
    hide Route, LayersOf, RunLayers, RanOk;
    var k := t.index;
    assert t.tasks[k] == TaskFor(RouteOf(t)[k], k, |t.tasks|, t.plan.epoch, t.req, t.tasks[k].taskId);
    if k + 1 < |t.tasks| {
      assert t.tasks[k + 1] == TaskFor(RouteOf(t)[k + 1], k + 1, |t.tasks|, t.plan.epoch, t.req, t.tasks[k + 1].taskId);
    }
  }

  /** Nothing but this request has changed, apart from what is in the mailboxes. */
  ghost predicate OnlyTicket<H>(s: State<H>, u: State<H>, id: nat) {
    && u == s.(tickets := u.tickets, nextTaskId := u.nextTaskId, boxes := u.boxes)
    && u.tickets - {id} == s.tickets - {id}
  }

  /** The request has been routed by the plan in service and `k` of its stages have answered. */
  ghost predicate ServedSoFar<H>(c: Config<H>, s: State<H>, u: State<H>, id: nat, req: Request, healthy: set<NodeId>, k: nat) {
    && OnlyTicket(s, u, id) && id in u.tickets
    && u.tickets[id].plan == s.published && u.tickets[id].req == req && u.tickets[id].healthy == healthy
    && |u.tickets[id].tasks| == |Route(s.published.placements, healthy)|
    && u.tickets[id].index == k
    && (if k == |u.tickets[id].tasks| then u.tickets[id].status.Done? else Ready(u.tickets[id]))
    && TicketTrue(c, u.tickets[id])
  }

  lemma {:induction false} ServedUpTo<H>(c: Config<H>, s: State<H>, id: nat, req: Request, healthy: set<NodeId>, k: nat)
    returns (u: State<H>)
    requires Safe(c, s) && InService(s) && id !in s.tickets
    requires k <= |Route(s.published.placements, healthy)| && Route(s.published.placements, healthy) != []
    ensures Run(c, s, ServeSteps(c.transport, |s.inFlight|, id, req, healthy, k)) == Some(u)
    ensures Safe(c, u) && ServedSoFar(c, s, u, id, req, healthy, k)
  {
    hide Safe, Route, InService, Run, ServedSoFar;
    if k == 0 {
      u := Routed(c, s, id, req, healthy);
    } else {
      var before := ServedUpTo(c, s, id, req, healthy, k - 1);
      u := ServeStage(c, s, before, ServeSteps(c.transport, |s.inFlight|, id, req, healthy, k - 1), id, req, healthy, k - 1);
    }
  }

  lemma Routed<H>(c: Config<H>, s: State<H>, id: nat, req: Request, healthy: set<NodeId>) returns (u: State<H>)
    requires Safe(c, s) && id !in s.tickets && Route(s.published.placements, healthy) != []
    ensures Run(c, s, ServeSteps(c.transport, |s.inFlight|, id, req, healthy, 0)) == Some(u)
    ensures Safe(c, u) && ServedSoFar(c, s, u, id, req, healthy, 0)
  {
    hide Safe, Run, ServedSoFar, Route;
    RoutedIsReady(c, s, id, req, healthy);
    u := RouteStep(c, s, id, req, healthy).value;
    OneStep(c, s, RouteRequest(id, req, healthy));
    StepSafe(c, s, RouteRequest(id, req, healthy));
  }

  lemma RoutedIsReady<H>(c: Config<H>, s: State<H>, id: nat, req: Request, healthy: set<NodeId>)
    requires id !in s.tickets && Route(s.published.placements, healthy) != []
    ensures var r := RouteStep(c, s, id, req, healthy);
      r.Some? && ServedSoFar(c, s, r.value, id, req, healthy, 0)
  {
    hide Route, OutputOf;
    var u := RouteStep(c, s, id, req, healthy).value;
    assert u.tickets - {id} == s.tickets - {id};
  }

  /** The hand-over delivers the request's own output. */
  lemma HopDelivers<H>(c: Config<H>, s: State<H>, id: nat) returns (u: State<H>)
    requires Safe(c, s) && id in s.tickets && Ready(s.tickets[id]) && s.tickets[id].index > 0
    ensures Run(c, s, HopSteps(c.transport, |s.inFlight|, id)) == Some(u)
    ensures OnlyTicket(s, u, id) && id in u.tickets
    ensures u.tickets[id] == Handed(s.tickets[id], Delivery(s.tickets[id]))
  {
    hide Safe, KeyOf;
    var t := s.tickets[id];
    if c.transport.InMemory? {
      OneStep(c, s, Deliver(id));
      u := TicketStep(c, s, Deliver(id)).value;
    } else {
      var pushed := TicketStep(c, s, PushActivation(id)).value;
      var arrived := MailStep(pushed, |s.inFlight|, true).value;
      assert pushed.inFlight[|s.inFlight|] == Delivery(t);
      assert arrived.inFlight == s.inFlight;
      u := TicketStep(c, arrived, PullActivation(id)).value;
      ThreeSteps(c, s, pushed, arrived, PushActivation(id), MailArrives(|s.inFlight|), PullActivation(id));
    }
    assert u.tickets - {id} == s.tickets - {id};
  }

  lemma {:induction false} RunsKeepSafe<H>(c: Config<H>, s: State<H>, steps: seq<Step>, u: State<H>)
    requires Safe(c, s) && Run(c, s, steps) == Some(u)
    ensures Safe(c, u)
  {
    hide Next, Safe;
    if steps != [] {
      var before := Run(c, s, steps[..|steps| - 1]).value;
      RunsKeepSafe(c, s, steps[..|steps| - 1], before);
      StepSafe(c, before, steps[|steps| - 1]);
    }
  }

  /** The hand-over before a stage, unless it is the first: afterwards the stage may be called and will answer. */
  lemma HandOverFirst<H>(c: Config<H>, s: State<H>, before: State<H>, id: nat, req: Request, healthy: set<NodeId>, k: nat)
    returns (mid: State<H>, hop: seq<Step>)
    requires InService(s) && Safe(c, before) && ServedSoFar(c, s, before, id, req, healthy, k)
    requires k < |Route(s.published.placements, healthy)|
    ensures hop == if k > 0 then HopSteps(c.transport, |s.inFlight|, id) else []
    ensures Run(c, before, hop) == Some(mid) && Safe(c, mid)
    ensures OnlyTicket(before, mid, id) && id in mid.tickets
    ensures var t := mid.tickets[id];
      && t == (if k > 0 then Handed(before.tickets[id], Delivery(before.tickets[id])) else before.tickets[id])
      && t.status.Running? && t.attempt.retries == 0 && t.handover.Arrived? && TicketTrue(c, t)
      && t.attempt.nodeId in s.engines
      && GenerateResult(c.net, t.attempt.nodeId, s.engines[t.attempt.nodeId], t.attempt).Success?
  {
    hide Route, Run, Safe, GenerateResult, OutputOf, AnswerTrue, TicketOk;
    var t := before.tickets[id];
    TicketIsOk(c, before, id);
    assert Served(s.engines, t);
    ReadyStageAnswers(c, s.engines, t);
    if k > 0 {
      hop := HopSteps(c.transport, |s.inFlight|, id);
      mid := HopDelivers(c, before, id);
      RunsKeepSafe(c, before, hop, mid);
      DeliveryIsOwn(c, t);
      HandedOwn(c, t, Delivery(t));
    } else {
      hop, mid := [], before;
      NoSteps(c, before);
    }
  }

  lemma NoSteps<H>(c: Config<H>, s: State<H>)
    ensures Run(c, s, []) == Some(s)
  {
  }

  /** One more stage: a hand-over if it is not the first, then the stage call. */
  lemma ServeStage<H>(c: Config<H>, s: State<H>, before: State<H>, steps: seq<Step>, id: nat, req: Request, healthy: set<NodeId>,
                      k: nat)
    returns (u: State<H>)
    requires Safe(c, s) && InService(s) && Safe(c, before) && ServedSoFar(c, s, before, id, req, healthy, k)
    requires k < |Route(s.published.placements, healthy)|
    requires Run(c, s, steps) == Some(before)
    ensures Run(c, s, if k > 0 then steps + HopSteps(c.transport, |s.inFlight|, id) + [RunStage(id)] else steps + [RunStage(id)]) == Some(u)
    ensures Safe(c, u) && ServedSoFar(c, s, u, id, req, healthy, k + 1)
  {
    hide Route, Run, Safe, GenerateResult, InService, Attempted, TicketTrue, HopSteps, TicketOk;
    var mid, hop := HandOverFirst(c, s, before, id, req, healthy, k);
    RunConcat(c, s, steps, before, hop);
    assert k == 0 ==> steps + hop == steps;
    var t := mid.tickets[id];
    TicketIsOk(c, mid, id);
    assert DistinctNodes(RouteOf(t)) by {
      ServedIsDistinct(c, s);
      RouteNodesDistinct(t.plan.placements, t.healthy);
    }
    AnswerLeavesReady(c, s.engines, t, mid.nextTaskId);
    EnginesAreOk(c, mid);
    AttemptKeepsTrue(c, mid, t, mid.nextTaskId);
    RunOneMore(c, s, steps + hop, mid, RunStage(id));
    StepSafe(c, mid, RunStage(id));
    u := TicketStep(c, mid, RunStage(id)).value;
    assert u.tickets - {id} == mid.tickets - {id};
  }

  lemma EnginesAreOk<H>(c: Config<H>, s: State<H>)
    requires Safe(c, s)
    ensures EnginesOk(c, s)
  {
  }

  lemma ServedIsDistinct<H>(c: Config<H>, s: State<H>)
    requires Safe(c, s) && InService(s)
    ensures DistinctNodes(s.published.placements)
  {
    PublishedIsDistinct(c, s);
  }

  lemma PublishedIsDistinct<H>(c: Config<H>, s: State<H>)
    requires PlansOk(c, s) && s.current.Some?
    ensures Tiles(s.published.placements, c.model.numLayers) && DistinctNodes(s.published.placements)
  {
  }

  /** Availability: with the plan in service and every node of it healthy, an undisturbed request is answered, and with
      the output of the whole model. */
  lemma UndisturbedRequestIsAnswered<H>(c: Config<H>, s: State<H>, id: nat, req: Request, healthy: set<NodeId>)
    requires Safe(c, s) && InService(s) && id !in s.tickets
    requires forall p :: p in s.published.placements ==> p.nodeId in healthy
    ensures var end := Run(c, s, ServeSteps(c.transport, |s.inFlight|, id, req, healthy, |s.published.placements|));
      && end.Some? && id in end.value.tickets
      && end.value.tickets[id].status.Done?
      && end.value.tickets[id].status.result.text
         == (c.net.readout)(WholeModel(c.net, c.model.numLayers, req.prompt), req.maxTokens)
  {
    hide TicketsOk, EnginesOk;
    var ps := s.published.placements;
    PublishedIsDistinct(c, s);
    FullRouteIsChain(ps, healthy, c.model.numLayers);
    ChainLayers(Route(ps, healthy), 0, c.model.numLayers);
    assert |Route(ps, healthy)| == |ps| by {
      forall p | p in ps ensures Usable(p, healthy) {
        assert RangeInside(p, c.model.numLayers);
      }
      KeepAll(ps, healthy);
    }
    var u := ServedUpTo(c, s, id, req, healthy, |ps|);
    assert AnswerTrue(c, u.tickets[id]);
  }

  /** With a node of the plan unhealthy at routing, but not all of them, the request is answered all the same, from part of
      the model only. */
  lemma PartialRouteIsAnswered<H>(c: Config<H>, s: State<H>, id: nat, req: Request, healthy: set<NodeId>)
    requires Safe(c, s) && InService(s) && id !in s.tickets
    requires exists p :: p in s.published.placements && p.nodeId !in healthy
    requires Route(s.published.placements, healthy) != []
    ensures var end := Run(c, s, ServeSteps(c.transport, |s.inFlight|, id, req, healthy, |Route(s.published.placements, healthy)|));
      && end.Some? && id in end.value.tickets
      && end.value.tickets[id].status.Done?
      && LayersRun(end.value.tickets[id].ran) != LayerIds(0, c.model.numLayers)
  {
    hide TicketsOk, EnginesOk, Route, LayersOf, Tiles, TicketOk;
    PublishedIsDistinct(c, s);
    var u := ServedUpTo(c, s, id, req, healthy, |Route(s.published.placements, healthy)|);
    TicketIsOk(c, u, id);
    FinishedTicket(c, u.tickets[id]);
    RouteIsCompleteIff(s.published.placements, healthy, c.model.numLayers);
  }

  /** In a disciplined run the plan is in service whenever no activation is under way, so the theorem above applies. */
  lemma DisciplinedRunsStayInService<H>(c: Config<H>, steps: seq<Step>, s: State<H>)
    requires Run(c, Init(c), steps) == Some(s) && DisciplinedRun(c, Init(c), steps)
    requires s.current.Some? && !s.phase.Activating?
    ensures Safe(c, s) && InService(s)
  {
    hide Safe, Serving;
    RunsAreSafe(c, steps, s);
    CutOverHolds(c, steps, s);
  }
}
