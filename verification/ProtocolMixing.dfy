/** Request ids and mailboxes: never using an id twice is enough to keep requests apart, and using one twice is not safe. */
module ProtocolMixing {
  import opened Types
  import opened Coverage
  import opened ModelManagement
  import opened TorchEngine
  import opened PipelinePlacement
  import opened Coordinator
  import opened Protocol
  import opened ProtocolSafety
  import opened ProtocolCutOver
  import opened ProtocolAnswers
  import opened ProtocolProgress
  import Mailbox

  // ---------------------------------------------------------------- ids that are never used twice

  /** A request id is new when no request so far has had it, running or not. */
  ghost predicate FreshIds<H>(s: State<H>, step: Step) {
    && (step.RouteRequest? ==> forall i :: i in s.tickets ==> s.tickets[i].req.requestId != step.req.requestId)
    && (step.AttachNode? ==> NoColon(step.nodeId))
  }

  ghost predicate FreshIdsRun<H>(c: Config<H>, s: State<H>, steps: seq<Step>) {
    steps != [] ==>
      && FreshIdsRun(c, s, steps[..|steps| - 1])
      && Run(c, s, steps[..|steps| - 1]).Some?
      && FreshIds(Run(c, s, steps[..|steps| - 1]).value, steps[|steps| - 1])
  }

  /** All mail is of some request or other. */
  ghost predicate MailKnown<H>(s: State<H>) {
    forall e :: e in Mail(s) ==> HasSender(s, e)
  }

  ghost predicate HasSender<H>(s: State<H>, e: Envelope<H>) {
    exists i :: i in s.tickets && s.tickets[i].req.requestId == e.requestId
  }

  lemma StepKeepsMailKnown<H>(c: Config<H>, s: State<H>, step: Step)
    requires Safe(c, s) && Unmixed(c, s) && MailKnown(s) && Next(c, s, step).Some?
    ensures MailKnown(Next(c, s, step).value)
  {
    hide Safe, Unmixed, CanHost, Committed, PlanValid, StepLedger, PrepareResult, Attempted, KeyOf, Route;
    var u := Next(c, s, step).value;
    StepKeepsSenders(c, s, step);
    forall e | e in Mail(u)
      ensures HasSender(u, e)
    {
      if e in Mail(s) {
        var i :| i in s.tickets && s.tickets[i].req.requestId == e.requestId;
        assert i in u.tickets && u.tickets[i].req.requestId == e.requestId;
      } else {
        NewMailHasSender(c, s, step, e);
      }
    }
  }

  lemma StepKeepsSenders<H>(c: Config<H>, s: State<H>, step: Step)
    requires Next(c, s, step).Some?
    ensures forall i :: i in s.tickets ==>
      i in Next(c, s, step).value.tickets && Next(c, s, step).value.tickets[i].req == s.tickets[i].req
  {
    hide TicketStep, BeginStep, PrepareStep, CommitStep, ActivateStep, PublishStep, DrainStep, RetireStep, AttachStep, StepLedger,
      KeyOf, Route;
    if IsTicketStep(step) {
      TicketStepKeepsRequests(c, s, step);
    } else if !step.RouteRequest? && !step.MailArrives? && !step.MailIsLost? {
      OtherStepFrame(c, s, step);
    }
  }

  lemma TicketStepKeepsRequests<H>(c: Config<H>, s: State<H>, step: Step)
    requires IsTicketStep(step) && TicketStep(c, s, step).Some?
    ensures forall i :: i in s.tickets ==>
      i in TicketStep(c, s, step).value.tickets && TicketStep(c, s, step).value.tickets[i].req == s.tickets[i].req
  {
    hide GenerateResult, KeyOf;
  }

  /** Only a push adds mail, and what it adds is of its own request. */
  lemma NewMailHasSender<H>(c: Config<H>, s: State<H>, step: Step, e: Envelope<H>)
    requires Safe(c, s) && Unmixed(c, s) && Next(c, s, step).Some?
    requires e in Mail(Next(c, s, step).value)
    ensures e in Mail(s) || HasSender(Next(c, s, step).value, e)
  {
    hide Safe, Unmixed, Mail, HasSender, TicketStep, RouteStep, MailStep, BeginStep, PrepareStep, CommitStep, ActivateStep,
      PublishStep, DrainStep, RetireStep, AttachStep, StepLedger;
    if step.PushActivation? {
      PushedHasSender(c, s, step.ticket, e);
    } else if step.MailArrives? || step.MailIsLost? {
      MailOnlyMoves(s, step.message, step.MailArrives?);
    } else if IsTicketStep(step) {
      OnlyPushAddsMail(c, s, step);
    } else if step.RouteRequest? {
      RouteAddsNoMail(c, s, step.ticket, step.req, step.healthy);
    } else {
      OtherStepFrame(c, s, step);
      FewerLetters(s, Next(c, s, step).value);
    }
  }

  lemma OnlyPushAddsMail<H>(c: Config<H>, s: State<H>, step: Step)
    requires IsTicketStep(step) && !step.PushActivation? && TicketStep(c, s, step).Some?
    ensures Mail(TicketStep(c, s, step).value) <= Mail(s)
  {
    hide KeyOf, Attempted, Mail;
    FewerLetters(s, TicketStep(c, s, step).value);
  }

  lemma RouteAddsNoMail<H>(c: Config<H>, s: State<H>, id: nat, req: Request, healthy: set<NodeId>)
    requires RouteStep(c, s, id, req, healthy).Some?
    ensures Mail(RouteStep(c, s, id, req, healthy).value) <= Mail(s)
  {
    hide Route, Mail;
    FewerLetters(s, RouteStep(c, s, id, req, healthy).value);
  }

  lemma PushedHasSender<H>(c: Config<H>, s: State<H>, id: nat, e: Envelope<H>)
    requires Safe(c, s) && Unmixed(c, s) && TicketStep(c, s, PushActivation(id)).Some?
    requires e in Mail(TicketStep(c, s, PushActivation(id)).value)
    ensures e in Mail(s) || HasSender(TicketStep(c, s, PushActivation(id)).value, e)
  {
    hide Safe, TicketOk, KeyOf, HiddenAfter;
    TicketIsOk(c, s, id);
    DeliveryIsOwn(c, s.tickets[id]);
    assert TicketStep(c, s, PushActivation(id)).value.tickets[id].req == s.tickets[id].req;
  }

  lemma FewerLetters<H>(s: State<H>, u: State<H>)
    requires u.inFlight == s.inFlight && forall k :: k in u.boxes ==> k in s.boxes && u.boxes[k] == s.boxes[k]
    ensures Mail(u) <= Mail(s)
  {
  }

  lemma MailOnlyMoves<H>(s: State<H>, i: nat, arrives: bool)
    requires MailStep(s, i, arrives).Some?
    ensures Mail(MailStep(s, i, arrives).value) <= Mail(s)
  {
    hide KeyOf;
  }

  /** Callers who never use an id twice are careful, whatever happens to the mail. */
  lemma {:induction false} FreshIdsAreCareful<H>(c: Config<H>, steps: seq<Step>, s: State<H>)
    requires Run(c, Init(c), steps) == Some(s) && FreshIdsRun(c, Init(c), steps)
    ensures CarefulRun(c, Init(c), steps) && Safe(c, s) && Unmixed(c, s) && MailKnown(s)
  {
    hide Next, Safe, Unmixed, MailKnown;
    if steps == [] {
      CarefulRunsAreUnmixed(c, steps, s);
      NoMailKnown(c);
    } else {
      var n := |steps| - 1;
      var before := Run(c, Init(c), steps[..n]).value;
      FreshIdsAreCareful(c, steps[..n], before);
      FreshIdIsFree(before, steps[n]);
      CarefulRunsAreUnmixed(c, steps, s);
      StepKeepsMailKnown(c, before, steps[n]);
    }
  }

  lemma NoMailKnown<H>(c: Config<H>)
    ensures MailKnown(Init(c))
  {
  }

  lemma FreshIdIsFree<H>(s: State<H>, step: Step)
    requires MailKnown(s) && FreshIds(s, step)
    ensures step.RouteRequest? ==> IdIsFree(s, step.req.requestId)
  {
    hide Mail;
  }

  // ---------------------------------------------------------------- ids that are used twice

  /** Whatever is in flight under the key of a request's own delivery, from whomever, can be what the request pulls. */
  lemma SameKeyIsPulled<H>(c: Config<H>, s: State<H>, b: nat, i: nat)
    requires c.transport.Mailboxes? && Live(s, b) && s.tickets[b].handover.ToSend? && s.tickets[b].attempt.activation.Some?
    requires i < |s.inFlight| && KeyOf(s.inFlight[i]) == KeyOf(Delivery(s.tickets[b]))
    requires s.inFlight[i].destination == Some(s.tickets[b].attempt.nodeId)
    ensures var end := Run(c, s, [PushActivation(b), MailArrives(i), PullActivation(b)]);
      && end.Some? && b in end.value.tickets && end.value.engines == s.engines && end.value.nextTaskId == s.nextTaskId
      && end.value.tickets[b] == Handed(s.tickets[b], s.inFlight[i])
  {
    hide KeyOf;
    var pushed := TicketStep(c, s, PushActivation(b)).value;
    assert pushed.inFlight[i] == s.inFlight[i];
    var arrived := MailStep(pushed, i, true).value;
    ThreeSteps(c, s, pushed, arrived, PushActivation(b), MailArrives(i), PullActivation(b));
  }

  /** Two live requests with one id. */
  ghost predicate SameIdAndRoute<H>(t: Ticket<H>, u: Ticket<H>) {
    t.req.requestId == u.req.requestId && t.plan == u.plan && t.healthy == u.healthy && t.index == u.index
  }

  /** Their deliveries are filed under the same key. */
  lemma SameIdSameKey<H>(c: Config<H>, t: Ticket<H>, u: Ticket<H>)
    requires TicketOk(c, t) && TicketOk(c, u) && TicketTrue(c, t) && TicketTrue(c, u) && SameIdAndRoute(t, u)
    requires t.status.Running? && u.status.Running? && Ready(t) && Ready(u) && t.index > 0
    ensures KeyOf(Delivery(t)) == KeyOf(Delivery(u))
    ensures Delivery(t).destination == Some(u.attempt.nodeId)
  {
    hide HiddenAfter, Route, RanOk, KeyOf;
    assert t.tasks[t.index] == TaskFor(RouteOf(t)[t.index], t.index, |t.tasks|, t.plan.epoch, t.req, t.tasks[t.index].taskId);
    assert u.tasks[u.index] == TaskFor(RouteOf(u)[u.index], u.index, |u.tasks|, u.plan.epoch, u.req, u.tasks[u.index].taskId);
    SameLabelSameKey(Delivery(t), Delivery(u));
  }

  lemma SameLabelSameKey<H>(e: Envelope<H>, f: Envelope<H>)
    requires e.requestId == f.requestId && e.epoch == f.epoch && e.stageIndex == f.stageIndex && e.source == f.source
    requires e.destination == f.destination
    ensures KeyOf(e) == KeyOf(f)
  {
    hide Mailbox.Tag;
  }

  lemma ReadyIsLive<H>(s: State<H>, b: nat)
    requires b in s.tickets && Ready(s.tickets[b])
    ensures Live(s, b)
    ensures s.tickets[b].index > 0 ==> s.tickets[b].handover.ToSend? && s.tickets[b].attempt.activation.Some?
  {
  }

  lemma RouteOfHealthyPlan<H>(c: Config<H>, s: State<H>, healthy: set<NodeId>)
    requires Safe(c, s) && InService(s) && forall p :: p in s.published.placements ==> p.nodeId in healthy
    ensures |Route(s.published.placements, healthy)| == |s.published.placements|
    ensures LayersOf(Route(s.published.placements, healthy)) == LayerIds(0, c.model.numLayers)
  {
    hide TicketsOk, EnginesOk;
    var ps := s.published.placements;
    PublishedIsDistinct(c, s);
    FullRouteIsChain(ps, healthy, c.model.numLayers);
    ChainLayers(Route(ps, healthy), 0, c.model.numLayers);
    forall p | p in ps
      ensures Usable(p, healthy)
    {
      assert RangeInside(p, c.model.numLayers);
    }
    KeepAll(ps, healthy);
  }

  /** A push, after which the request may be given up while the push is still on its way. */
  function SendSteps(a: nat, givenUp: bool): seq<Step> {
    [PushActivation(a)] + if givenUp then [LoseActivation(a)] else []
  }

  /** Before its last stage the request sends its activation; the cluster serves on. */
  lemma PushStage<H>(c: Config<H>, s: State<H>, s1: State<H>, a: nat, givenUp: bool, req: Request, healthy: set<NodeId>)
    returns (s2: State<H>)
    requires Safe(c, s) && InService(s) && Safe(c, s1) && c.transport.Mailboxes?
    requires |Route(s.published.placements, healthy)| >= 2
    requires ServedSoFar(c, s, s1, a, req, healthy, |Route(s.published.placements, healthy)| - 1)
    ensures Run(c, s1, SendSteps(a, givenUp)) == Some(s2) && Safe(c, s2) && InService(s2)
    ensures s1.tickets[a].attempt.activation.Some? && s2.inFlight == s.inFlight + [Delivery(s1.tickets[a])]
    ensures s2.published == s.published && s2.engines == s.engines && s2.tickets.Keys == s.tickets.Keys + {a}
    ensures a in s2.tickets && (givenUp ==> s2.tickets[a].status.Failed?)
  {
    hide Safe, Route, TicketTrue, Serving;
    assert s1.tickets.Keys == s.tickets.Keys + {a} by {
      KeysWithout(s.tickets, s1.tickets, a);
    }
    s2 := TicketStep(c, s1, PushActivation(a)).value;
    StepSafe(c, s1, PushActivation(a));
    OneStep(c, s1, PushActivation(a));
    if givenUp {
      RunOneMore(c, s1, [PushActivation(a)], s2, LoseActivation(a));
      StepSafe(c, s2, LoseActivation(a));
      s2 := TicketStep(c, s2, LoseActivation(a)).value;
    }
  }

  lemma KeysWithout<V>(m: map<nat, V>, n: map<nat, V>, a: nat)
    requires m - {a} == n - {a} && a in n
    ensures n.Keys == m.Keys + {a}
  {
    assert n.Keys - {a} == (n - {a}).Keys == (m - {a}).Keys == m.Keys - {a};
    assert forall k :: k in n.Keys <==> k in n.Keys - {a} || k == a;
  }

  /** A stage checks who sent an activation to whom, not whose prompt it comes from. */
  lemma SameChecks<H>(n: NodeId, e: EngineState, t: Task<H>, x: Envelope<H>, y: Envelope<H>)
    requires x.requestId == y.requestId && x.epoch == y.epoch && x.destination == y.destination
    ensures TaskError(n, e, t.(activation := Some(x))) == TaskError(n, e, t.(activation := Some(y)))
  {
  }

  lemma OthersActivationAccepted<H>(c: Config<H>, s: State<H>, t: Ticket<H>, u: Ticket<H>)
    requires EnginesOk(c, s) && TicketOk(c, t) && TicketOk(c, u) && TicketTrue(c, t) && TicketTrue(c, u)
    requires SameIdAndRoute(t, u) && Ready(t) && Ready(u) && t.index > 0 && Served(s.engines, u)
    ensures var a := Handed(u, Delivery(t)).attempt;
      a.nodeId in s.engines && GenerateResult(c.net, a.nodeId, s.engines[a.nodeId], a).Success?
  {
    hide Route, RunLayers, LayersOf, IdsOf, RanOk, EnginesOk, KeyOf;
    ReadyStageAnswers(c, s.engines, u);
    SameIdSameKey(c, t, u);
    SameChecks(u.attempt.nodeId, s.engines[u.attempt.nodeId], u.attempt, Delivery(u), Delivery(t));
  }

  /** Running the last stage on a request's own delivery completes its route. */
  lemma DeliveryCompletes<H>(c: Config<H>, t: Ticket<H>)
    requires TicketOk(c, t) && TicketTrue(c, t) && Ready(t) && t.index == |t.tasks| - 1 > 0
    ensures RunLayers(c.net, IdsOf(RouteOf(t)[t.index]), Delivery(t).payload)
         == RunLayers(c.net, LayersOf(RouteOf(t)), (c.net.embed)(t.req.prompt))
  {
    hide Route, RunLayers, LayersOf, IdsOf, RanOk;
    HandoverKeepsTicketOk(c, t, Delivery(t));
    DeliveryIsOwn(c, t);
    HandedOwn(c, t, Delivery(t));
    AnswerIsNextHidden(c, Handed(t, Delivery(t)));
    AllRun(c, Handed(t, Delivery(t)));
    assert t.tasks[t.index] == TaskFor(RouteOf(t)[t.index], t.index, |t.tasks|, t.plan.epoch, t.req, t.tasks[t.index].taskId);
  }

  /** A last stage that was handed the other request's activation answers from it. */
  lemma LastStageUsesWhatItGot<H>(c: Config<H>, s: State<H>, t: Ticket<H>, u: Ticket<H>, freshId: nat)
    requires EnginesOk(c, s) && TicketOk(c, t) && TicketOk(c, u) && TicketTrue(c, t) && TicketTrue(c, u)
    requires SameIdAndRoute(t, u) && Ready(t) && Ready(u) && t.index == |t.tasks| - 1 > 0 && Served(s.engines, u)
    ensures var r := Attempted(c, Handed(u, Delivery(t)), s.engines, freshId);
      && r.status.Done? && r.req == u.req && r.plan == u.plan && r.healthy == u.healthy
      && r.status.result.text
         == (c.net.readout)(RunLayers(c.net, LayersOf(RouteOf(t)), (c.net.embed)(t.req.prompt)), u.req.maxTokens)
  {
    hide Route, RunLayers, LayersOf, IdsOf, RanOk, EnginesOk;
    var v := Handed(u, Delivery(t));
    OthersActivationAccepted(c, s, t, u);
    HandoverKeepsTicketOk(c, u, Delivery(t));
    DeliveryCompletes(c, t);
    AnswerIsLabelled(c, s, v);
    AnswerRanRoutedRange(c, s, v);
    assert u.tasks[u.index] == TaskFor(RouteOf(u)[u.index], u.index, |u.tasks|, u.plan.epoch, u.req, u.tasks[u.index].taskId);
    assert t.tasks[t.index] == TaskFor(RouteOf(t)[t.index], t.index, |t.tasks|, t.plan.epoch, t.req, t.tasks[t.index].taskId);
  }

  /** The run in which the second of two requests with one id pulls the activation of the first. */
  function MixingSteps(stages: nat, waiting: nat, a: nat, givenUp: bool, first: Request, b: nat, second: Request,
                       healthy: set<NodeId>): seq<Step>
    requires stages > 0
  {
    ServeSteps(Mailboxes, waiting, a, first, healthy, stages - 1) + SendSteps(a, givenUp)
    + ServeSteps(Mailboxes, waiting + 1, b, second, healthy, stages - 1)
    + [PushActivation(b), MailArrives(waiting), PullActivation(b)] + [RunStage(b)]
  }

  /** With mailboxes, a plan of at least two stages in service and two requests of one id, the second can be answered with the model's
      output for the first one's prompt: when they overlap, and even when the first has been given up before the second
      arrives, because a push is not acknowledged. So ids have to be new, not just different among live requests. */
  lemma SharedIdAnswersTheOtherPrompt<H>(c: Config<H>, s: State<H>, a: nat, givenUp: bool, first: Request, b: nat, second: Request,
                                         healthy: set<NodeId>)
    requires Safe(c, s) && InService(s) && c.transport.Mailboxes? && |s.published.placements| >= 2
    requires forall p :: p in s.published.placements ==> p.nodeId in healthy
    requires a != b && a !in s.tickets && b !in s.tickets && first.requestId == second.requestId
    ensures var end := Run(c, s, MixingSteps(|s.published.placements|, |s.inFlight|, a, givenUp, first, b, second, healthy));
      && end.Some? && b in end.value.tickets && end.value.tickets[b].status.Done?
      && end.value.tickets[b].req == second
      && end.value.tickets[b].plan == s.published && end.value.tickets[b].healthy == healthy
      && end.value.tickets[b].status.result.text
         == (c.net.readout)(WholeModel(c.net, c.model.numLayers, first.prompt), second.maxTokens)
  {
    hide Safe, InService, Run, Next, TicketTrue, TicketOk, Ready, Route, KeyOf, LayersOf, ServeSteps, SameIdAndRoute, Attempted, Live;
    RouteOfHealthyPlan(c, s, healthy);
    var m, k := |s.inFlight|, |s.published.placements| - 1;
    var s1 := ServedUpTo(c, s, a, first, healthy, k);
    var s2 := PushStage(c, s, s1, a, givenUp, first, healthy);
    var s3 := ServedUpTo(c, s2, b, second, healthy, k);
    var mixed := MixedState(c, s, s1, s2, s3, a, first, b, second, healthy);
    var serve1, serve2 := ServeSteps(Mailboxes, m, a, first, healthy, k), ServeSteps(Mailboxes, m + 1, b, second, healthy, k);
    var pull := [PushActivation(b), MailArrives(m), PullActivation(b)];
    var send := SendSteps(a, givenUp);
    RunConcat(c, s, serve1, s1, send);
    RunConcat(c, s, serve1 + send, s2, serve2);
    RunConcat(c, s, serve1 + send + serve2, s3, pull);
    RunOneMore(c, s, serve1 + send + serve2 + pull, mixed, RunStage(b));
    MixedAnswer(c, s, s1, s2, s3, mixed, a, first, b, second, healthy);
  }

  /** The moment after the second request has pulled what the first one sent. */
  lemma MixedState<H>(c: Config<H>, s: State<H>, s1: State<H>, s2: State<H>, s3: State<H>,
                      a: nat, first: Request, b: nat, second: Request, healthy: set<NodeId>) returns (mixed: State<H>)
    requires c.transport.Mailboxes? && a != b && first.requestId == second.requestId
    requires Safe(c, s1) && Safe(c, s3) && |Route(s.published.placements, healthy)| >= 2
    requires ServedSoFar(c, s, s1, a, first, healthy, |Route(s.published.placements, healthy)| - 1)
    requires ServedSoFar(c, s2, s3, b, second, healthy, |Route(s.published.placements, healthy)| - 1)
    requires s1.tickets[a].attempt.activation.Some? && s2.inFlight == s.inFlight + [Delivery(s1.tickets[a])]
    requires s2.published == s.published
    ensures Run(c, s3, [PushActivation(b), MailArrives(|s.inFlight|), PullActivation(b)]) == Some(mixed)
    ensures b in mixed.tickets && mixed.engines == s3.engines && mixed.tickets[b] == Handed(s3.tickets[b], Delivery(s1.tickets[a]))
  {
    hide Safe, Run, TicketOk, TicketTrue, Route, KeyOf, Live;
    var t, u := s1.tickets[a], s3.tickets[b];
    TicketIsOk(c, s1, a);
    TicketIsOk(c, s3, b);
    SameIdSameKey(c, t, u);
    ReadyIsLive(s3, b);
    SameKeyIsPulled(c, s3, b, |s.inFlight|);
    mixed := Run(c, s3, [PushActivation(b), MailArrives(|s.inFlight|), PullActivation(b)]).value;
  }

  lemma MixedAnswer<H>(c: Config<H>, s: State<H>, s1: State<H>, s2: State<H>, s3: State<H>, mixed: State<H>,
                       a: nat, first: Request, b: nat, second: Request, healthy: set<NodeId>)
    requires InService(s) && Safe(c, s1) && Safe(c, s3) && first.requestId == second.requestId
    requires |Route(s.published.placements, healthy)| >= 2
    requires LayersOf(Route(s.published.placements, healthy)) == LayerIds(0, c.model.numLayers)
    requires ServedSoFar(c, s, s1, a, first, healthy, |Route(s.published.placements, healthy)| - 1)
    requires ServedSoFar(c, s2, s3, b, second, healthy, |Route(s.published.placements, healthy)| - 1)
    requires s2.published == s.published && s2.engines == s.engines
    requires s1.tickets[a].attempt.activation.Some?
    requires b in mixed.tickets && mixed.engines == s3.engines && mixed.tickets[b] == Handed(s3.tickets[b], Delivery(s1.tickets[a]))
    ensures var end := Next(c, mixed, RunStage(b));
      && end.Some? && b in end.value.tickets && end.value.tickets[b].status.Done? && end.value.tickets[b].req == second
      && end.value.tickets[b].plan == s.published && end.value.tickets[b].healthy == healthy
      && end.value.tickets[b].status.result.text
         == (c.net.readout)(WholeModel(c.net, c.model.numLayers, first.prompt), second.maxTokens)
  {
    hide Safe, TicketOk, TicketTrue, Route, Attempted, RunLayers, LayersOf, Serving;
    TicketIsOk(c, s1, a);
    TicketIsOk(c, s3, b);
    EnginesAreOk(c, s3);
    LastStageUsesWhatItGot(c, s3, s1.tickets[a], s3.tickets[b], mixed.nextTaskId);
    assert Live(mixed, b);
  }
}
