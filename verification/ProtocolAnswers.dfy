/** What the text of an answer is. Activations of two requests can only be mixed up when the requests share an id. */
module ProtocolAnswers {
  import opened Types
  import opened ModelManagement
  import opened Coordinator
  import opened TorchEngine
  import opened PipelinePlacement
  import opened Protocol
  import opened ProtocolSafety
  import Mailbox

  /** The hidden state after the first k stages of the route. */
  ghost function HiddenAfter<H>(c: Config<H>, t: Ticket<H>, k: nat): H
    requires k <= |RouteOf(t)|
  {
    RunLayers(c.net, LayersOf(RouteOf(t)[..k]), (c.net.embed)(t.req.prompt))
  }

  // ---------------------------------------------------------------- whose activation is it

  /** The activation is what stage j of this request produced. */
  ghost predicate OutputOf<H>(c: Config<H>, t: Ticket<H>, e: Envelope<H>, j: int) {
    && 0 <= j < |RouteOf(t)|
    && e.requestId == t.req.requestId && e.epoch == t.plan.epoch && e.stageIndex == j && e.source == RouteOf(t)[j].nodeId
    && e.payload == HiddenAfter(c, t, j + 1)
  }

  /** A running request holds the output of its own last stage; a finished one has answered from its own last stage. */
  ghost predicate TicketTrue<H>(c: Config<H>, t: Ticket<H>) {
    && (t.status.Running? && t.attempt.retries == 0 && t.index > 0 ==>
      t.attempt.activation.Some? && OutputOf(c, t, t.attempt.activation.value, t.index - 1))
    && (t.status.Done? ==> AnswerTrue(c, t))
  }

  /** The text is read off exactly the layers that ran. */
  ghost predicate AnswerTrue<H>(c: Config<H>, t: Ticket<H>)
    requires t.status.Done?
  {
    t.status.result.text == (c.net.readout)(RunLayers(c.net, LayersOf(RouteOf(t)), (c.net.embed)(t.req.prompt)), t.req.maxTokens)
  }

  ghost predicate TicketsTrue<H>(c: Config<H>, s: State<H>) {
    forall id :: id in s.tickets ==> TicketTrue(c, s.tickets[id])
  }

  /** Everything under way to or waiting in a mailbox. */
  ghost function Mail<H>(s: State<H>): set<Envelope<H>> {
    (set i | 0 <= i < |s.inFlight| :: s.inFlight[i]) + s.boxes.Values
  }

  ghost predicate Addressed<H>(e: Envelope<H>) {
    e.destination.Some? && NoColon(e.source)
  }

  /** Letters are addressed and filed under their own key. */
  ghost predicate MailOk<H>(s: State<H>) {
    && (forall e :: e in s.inFlight ==> Addressed(e))
    && (forall k :: k in s.boxes ==> Addressed(s.boxes[k]) && KeyOf(s.boxes[k]) == k)
  }

  ghost predicate NodesPlain<H>(s: State<H>) {
    forall n :: n in s.engines ==> NoColon(n)
  }

  /** Whatever carries the id of a running request was produced by that request. */
  ghost predicate OwnMail<H>(c: Config<H>, s: State<H>, t: Ticket<H>) {
    && (t.attempt.activation.Some? ==> NoColon(t.attempt.activation.value.source))
    && forall e :: e in Mail(s) && e.requestId == t.req.requestId ==> OutputOf(c, t, e, e.stageIndex)
  }

  ghost predicate RunningOwnMail<H>(c: Config<H>, s: State<H>) {
    forall id :: id in s.tickets && s.tickets[id].status.Running? ==> OwnMail(c, s, s.tickets[id])
  }

  ghost predicate IdsDiffer<H>(s: State<H>) {
    forall i, j :: i in s.tickets && j in s.tickets && i != j && s.tickets[i].status.Running? && s.tickets[j].status.Running? ==>
      s.tickets[i].req.requestId != s.tickets[j].req.requestId
  }

  ghost predicate Unmixed<H>(c: Config<H>, s: State<H>) {
    && TicketsTrue(c, s)
    && match c.transport
       case InMemory => s.inFlight == [] && s.boxes == map[]
       case Mailboxes => MailOk(s) && NodesPlain(s) && RunningOwnMail(c, s) && IdsDiffer(s)
  }

  // ---------------------------------------------------------------- what callers have to keep to

  /** No running request has this id, and nothing of an earlier one is still on the way or in a mailbox. */
  ghost predicate IdIsFree<H>(s: State<H>, requestId: string) {
    && (forall i :: i in s.tickets && s.tickets[i].status.Running? ==> s.tickets[i].req.requestId != requestId)
    && (forall e :: e in Mail(s) ==> e.requestId != requestId)
  }

  /** With mailboxes: ids are free when they are used, and node ids contain no colon. Without, nothing is asked. */
  ghost predicate Careful<H>(c: Config<H>, s: State<H>, step: Step) {
    c.transport.Mailboxes? ==>
      && (step.RouteRequest? ==> IdIsFree(s, step.req.requestId))
      && (step.AttachNode? ==> NoColon(step.nodeId))
  }

  ghost predicate CarefulRun<H>(c: Config<H>, s: State<H>, steps: seq<Step>) {
    steps != [] ==>
      && CarefulRun(c, s, steps[..|steps| - 1])
      && Run(c, s, steps[..|steps| - 1]).Some?
      && Careful(c, Run(c, s, steps[..|steps| - 1]).value, steps[|steps| - 1])
  }

  // ---------------------------------------------------------------- one stage call

  lemma NothingRunYet<H>(c: Config<H>, t: Ticket<H>)
    ensures HiddenAfter(c, t, 0) == (c.net.embed)(t.req.prompt)
  {
    assert RouteOf(t)[..0] == [];
  }

  lemma AllRun<H>(c: Config<H>, t: Ticket<H>)
    ensures HiddenAfter(c, t, |RouteOf(t)|) == RunLayers(c.net, LayersOf(RouteOf(t)), (c.net.embed)(t.req.prompt))
  {
    assert RouteOf(t)[..|RouteOf(t)|] == RouteOf(t);
  }

  /** The stage's output is the next hidden state of the route. */
  lemma AnswerIsNextHidden<H>(c: Config<H>, t: Ticket<H>)
    requires TicketOk(c, t) && TicketTrue(c, t) && t.status.Running? && t.attempt.retries == 0
    ensures t.attempt.stageIndex == 0 || t.attempt.activation.Some?
    ensures RunLayers(c.net, IdsOf(RouteOf(t)[t.index]), StageInput(c.net, t.attempt)) == HiddenAfter(c, t, t.index + 1)
  {
    hide RanOk, IdsOf, Route, LayersOf;
    var k, route := t.index, RouteOf(t);
    assert t.tasks[k] == TaskFor(route[k], k, |t.tasks|, t.plan.epoch, t.req, t.tasks[k].taskId);
    LayersOfNext(route, k);
    RunLayersAppend(c.net, LayersOf(route[..k]), IdsOf(route[k]), (c.net.embed)(t.req.prompt));
    assert StageInput(c.net, t.attempt) == HiddenAfter(c, t, k) by {
      if k == 0 {
        NothingRunYet(c, t);
      }
    }
  }

  /** The envelope of an answer is labelled with the request's own stage. */
  lemma AnswerIsLabelled<H>(c: Config<H>, s: State<H>, t: Ticket<H>)
    requires EnginesOk(c, s) && TicketOk(c, t) && t.status.Running? && t.attempt.nodeId in s.engines
    requires GenerateResult(c.net, t.attempt.nodeId, s.engines[t.attempt.nodeId], t.attempt).Success?
    ensures t.attempt.retries == 0
    ensures t.attempt.nodeId == RouteOf(t)[t.index].nodeId
    ensures var g := GenerateResult(c.net, t.attempt.nodeId, s.engines[t.attempt.nodeId], t.attempt).value;
      && g.activation.requestId == t.req.requestId && g.activation.epoch == t.plan.epoch
      && g.activation.stageIndex == t.index && g.activation.source == RouteOf(t)[t.index].nodeId
      && (t.index == |t.tasks| - 1 ==> g.text == (c.net.readout)(g.activation.payload, t.req.maxTokens))
  {
    hide RouteOf, RanOk, EnginesOk, RunLayers, IdsOf;
    AnswerRanRoutedRange(c, s, t);
    assert t.tasks[t.index] == TaskFor(RouteOf(t)[t.index], t.index, |t.tasks|, t.plan.epoch, t.req, t.tasks[t.index].taskId);
  }

  /** An answered stage leaves the request with its own output. */
  lemma AnswerKeepsTrue<H>(c: Config<H>, s: State<H>, t: Ticket<H>, freshId: nat)
    requires EnginesOk(c, s) && TicketOk(c, t) && TicketTrue(c, t) && t.status.Running? && t.attempt.nodeId in s.engines
    requires GenerateResult(c.net, t.attempt.nodeId, s.engines[t.attempt.nodeId], t.attempt).Success?
    ensures TicketTrue(c, Attempted(c, t, s.engines, freshId))
    ensures var u := Attempted(c, t, s.engines, freshId);
      u.status.Running? ==> u.attempt.activation.Some? && u.attempt.activation.value.source == t.attempt.nodeId
  {
    hide RanOk, Route, EnginesOk, RunLayers, IdsOf, LayersOf;
    AnswerIsLabelled(c, s, t);
    AnswerRanRoutedRange(c, s, t);
    AnswerIsNextHidden(c, t);
    var g := GenerateResult(c.net, t.attempt.nodeId, s.engines[t.attempt.nodeId], t.attempt).value;
    assert OutputOf(c, t, g.activation, t.index);
    var u := Attempted(c, t, s.engines, freshId);
    SameRouteSameOutputs(c, t, u);
    if u.status.Done? {
      AllRun(c, t);
    }
  }

  /** What a request's outputs are depends on its route and prompt only. */
  lemma SameRouteSameOutputs<H>(c: Config<H>, t: Ticket<H>, u: Ticket<H>)
    requires u.plan == t.plan && u.healthy == t.healthy && u.req == t.req
    ensures RouteOf(u) == RouteOf(t)
    ensures forall e, j :: OutputOf(c, t, e, j) <==> OutputOf(c, u, e, j)
  {
    hide Route, RunLayers, LayersOf;
  }

  // ---------------------------------------------------------------- what stays true of a request

  /** One stage call: an answer, a retry or a failure. */
  lemma AttemptKeepsTrue<H>(c: Config<H>, s: State<H>, t: Ticket<H>, freshId: nat)
    requires EnginesOk(c, s) && TicketOk(c, t) && TicketTrue(c, t) && t.status.Running? && t.handover.Arrived?
    ensures var u := Attempted(c, t, s.engines, freshId);
      && TicketTrue(c, u) && u.plan == t.plan && u.healthy == t.healthy && u.req == t.req
      && (u.status.Running? && u.attempt.activation.Some? ==> u.attempt.activation.value.source in s.engines)
  {
    hide EnginesOk, TicketOk, OutputOf, AnswerTrue, GenerateResult;
    var a := t.attempt;
    RunningHasTask(c, t);
    if a.nodeId in s.engines && GenerateResult(c.net, a.nodeId, s.engines[a.nodeId], a).Success? {
      AnswerKeepsTrue(c, s, t, freshId);
    }
  }

  /** Handing over the request's own output. */
  lemma HandedOwn<H>(c: Config<H>, t: Ticket<H>, e: Envelope<H>)
    requires TicketOk(c, t) && TicketTrue(c, t) && t.status.Running? && !t.handover.Arrived?
    requires OutputOf(c, t, e, t.index - 1)
    ensures TicketTrue(c, Handed(t, e))
  {
    hide AnswerTrue;
    SameRouteSameOutputs(c, t, Handed(t, e));
  }

  /** What a request sends is its own output. */
  lemma DeliveryIsOwn<H>(c: Config<H>, t: Ticket<H>)
    requires TicketOk(c, t) && TicketTrue(c, t) && t.status.Running? && !t.handover.Arrived?
    ensures t.attempt.activation.Some? && OutputOf(c, t, Delivery(t), t.index - 1)
    ensures Delivery(t).source == t.attempt.activation.value.source
  {
    hide HiddenAfter;
  }

  lemma SameKeySameLabel<H>(e: Envelope<H>, f: Envelope<H>)
    requires Addressed(e) && Addressed(f) && KeyOf(e) == KeyOf(f)
    ensures e.requestId == f.requestId && e.epoch == f.epoch && e.stageIndex == f.stageIndex && e.source == f.source
  {
    Mailbox.TagsOfOneNodeAreDistinct(e.requestId, e.epoch, e.stageIndex, e.source,
                                     f.requestId, f.epoch, f.stageIndex, f.source, e.destination.value);
  }

  /** What is filed under the tag of a request's delivery is that request's own output. */
  lemma PulledIsOwn<H>(c: Config<H>, s: State<H>, t: Ticket<H>)
    requires TicketOk(c, t) && TicketTrue(c, t) && t.status.Running? && !t.handover.Arrived?
    requires MailOk(s) && OwnMail(c, s, t)
    requires t.attempt.activation.Some? && KeyOf(Delivery(t)) in s.boxes
    ensures OutputOf(c, t, s.boxes[KeyOf(Delivery(t))], t.index - 1)
  {
    hide HiddenAfter, KeyOf, TicketOk;
    var k := KeyOf(Delivery(t));
    DeliveryIsOwn(c, t);
    SameKeySameLabel(s.boxes[k], Delivery(t));
    assert s.boxes[k] in Mail(s);
  }

  // ---------------------------------------------------------------- every careful step

  /** A step that changes one request, and adds no mail of anyone else. */
  lemma OneTicketUnmixed<H>(c: Config<H>, s: State<H>, u: State<H>, id: nat)
    requires c.transport.Mailboxes? && Unmixed(c, s) && id in s.tickets && s.tickets[id].status.Running?
    requires id in u.tickets && u.tickets == s.tickets[id := u.tickets[id]] && u.engines == s.engines
    requires u.tickets[id].req == s.tickets[id].req && u.tickets[id].plan == s.tickets[id].plan
    requires u.tickets[id].healthy == s.tickets[id].healthy
    requires TicketTrue(c, u.tickets[id]) && MailOk(u)
    requires forall e :: e in Mail(u) ==> e in Mail(s) || OutputOf(c, s.tickets[id], e, e.stageIndex)
    requires u.tickets[id].status.Running? && u.tickets[id].attempt.activation.Some? ==>
      NoColon(u.tickets[id].attempt.activation.value.source)
    ensures Unmixed(c, u)
  {
    hide TicketTrue, MailOk, Mail, HiddenAfter, NoColon, RouteOf;
    SameRouteSameOutputs(c, s.tickets[id], u.tickets[id]);
    forall i | i in u.tickets && u.tickets[i].status.Running?
      ensures OwnMail(c, u, u.tickets[i])
    {
      assert OwnMail(c, s, s.tickets[i]);
      forall e | e in Mail(u) && e.requestId == u.tickets[i].req.requestId
        ensures OutputOf(c, u.tickets[i], e, e.stageIndex)
      {
        if i == id {
          assert OutputOf(c, s.tickets[id], e, e.stageIndex);
        } else {
          assert u.tickets[i] == s.tickets[i] && s.tickets[i].req.requestId != s.tickets[id].req.requestId;
          assert e in Mail(s);
        }
      }
    }
  }

  lemma PushUnmixed<H>(c: Config<H>, s: State<H>, id: nat)
    requires Safe(c, s) && Unmixed(c, s) && TicketStep(c, s, PushActivation(id)).Some?
    ensures Unmixed(c, TicketStep(c, s, PushActivation(id)).value)
  {
    hide PlansOk, EnginesOk, TicketOk, AnswerTrue, KeyOf, NoColon, RouteOf, HiddenAfter;
    var t, u := s.tickets[id], TicketStep(c, s, PushActivation(id)).value;
    TicketIsOk(c, s, id);
    DeliveryIsOwn(c, t);
    SameRouteSameOutputs(c, t, u.tickets[id]);
    assert OwnMail(c, s, t);
    assert forall e :: e in Mail(u) ==> e in Mail(s) || e == Delivery(t);
    OneTicketUnmixed(c, s, u, id);
  }

  lemma FewerBoxes<H>(s: State<H>, k: Key)
    requires MailOk(s)
    ensures MailOk(s.(boxes := s.boxes - {k}))
    ensures Mail(s.(boxes := s.boxes - {k})) <= Mail(s)
  {
    hide KeyOf, NoColon;
  }

  lemma PulledIsPlain<H>(s: State<H>, k: Key)
    requires MailOk(s) && k in s.boxes
    ensures NoColon(s.boxes[k].source)
  {
  }

  lemma SameMail<H>(s: State<H>, u: State<H>)
    requires u.inFlight == s.inFlight && u.boxes == s.boxes
    ensures Mail(u) == Mail(s) && (MailOk(s) <==> MailOk(u))
  {
  }

  lemma PullUnmixed<H>(c: Config<H>, s: State<H>, id: nat)
    requires Safe(c, s) && Unmixed(c, s) && TicketStep(c, s, PullActivation(id)).Some?
    ensures Unmixed(c, TicketStep(c, s, PullActivation(id)).value)
  {
    hide Safe, TicketOk, AnswerTrue, KeyOf, NoColon, OutputOf, MailOk, Mail, NodesPlain;
    var t, u := s.tickets[id], TicketStep(c, s, PullActivation(id)).value;
    TicketIsOk(c, s, id);
    var k := KeyOf(Delivery(t));
    assert OwnMail(c, s, t);
    FewerBoxes(s, k);
    if k in s.boxes {
      PulledIsOwn(c, s, t);
      HandedOwn(c, t, s.boxes[k]);
      PulledIsPlain(s, k);
    }
    SameMail(u, s.(boxes := u.boxes));
    OneTicketUnmixed(c, s, u, id);
  }

  lemma RunStageUnmixed<H>(c: Config<H>, s: State<H>, id: nat)
    requires Safe(c, s) && Unmixed(c, s) && TicketStep(c, s, RunStage(id)).Some?
    ensures Unmixed(c, TicketStep(c, s, RunStage(id)).value)
  {
    hide PlansOk, EnginesOk, TicketOk, AnswerTrue, KeyOf, NoColon, OutputOf, Attempted;
    var t, u := s.tickets[id], TicketStep(c, s, RunStage(id)).value;
    TicketIsOk(c, s, id);
    AttemptKeepsTrue(c, s, t, s.nextTaskId);
    if c.transport.Mailboxes? {
      SameMail(s, u);
      OneTicketUnmixed(c, s, u, id);
    }
  }

  lemma HandOverUnmixed<H>(c: Config<H>, s: State<H>, step: Step)
    requires Safe(c, s) && Unmixed(c, s) && (step.Deliver? || step.LoseActivation?) && TicketStep(c, s, step).Some?
    ensures Unmixed(c, TicketStep(c, s, step).value)
  {
    hide PlansOk, EnginesOk, TicketOk, AnswerTrue, KeyOf, NoColon, OutputOf;
    var id := step.ticket;
    var t, u := s.tickets[id], TicketStep(c, s, step).value;
    TicketIsOk(c, s, id);
    if step.Deliver? {
      DeliveryIsOwn(c, t);
      HandedOwn(c, t, Delivery(t));
    }
    if c.transport.Mailboxes? {
      SameMail(s, u);
      OneTicketUnmixed(c, s, u, id);
    }
  }

  lemma TicketIsOk<H>(c: Config<H>, s: State<H>, id: nat)
    requires Safe(c, s) && id in s.tickets
    ensures TicketOk(c, s.tickets[id])
  {
  }

  /** A push that arrives replaces what was filed under its key; one that is lost leaves the rest. */
  lemma MailUnmixed<H>(c: Config<H>, s: State<H>, i: nat, arrives: bool)
    requires Unmixed(c, s) && MailStep(s, i, arrives).Some?
    ensures Unmixed(c, MailStep(s, i, arrives).value)
  {
    hide TicketTrue, KeyOf, NoColon, OutputOf;
    var u := MailStep(s, i, arrives).value;
    assert s.inFlight[i] in s.inFlight;
    assert forall e :: e in u.inFlight ==> e in s.inFlight;
    assert forall e :: e in Mail(u) ==> e in Mail(s);
    forall j | j in u.tickets && u.tickets[j].status.Running?
      ensures OwnMail(c, u, u.tickets[j])
    {
      assert OwnMail(c, s, s.tickets[j]);
    }
  }

  lemma RouteUnmixed<H>(c: Config<H>, s: State<H>, id: nat, req: Request, healthy: set<NodeId>)
    requires Unmixed(c, s) && RouteStep(c, s, id, req, healthy).Some?
    requires c.transport.Mailboxes? ==> IdIsFree(s, req.requestId)
    ensures Unmixed(c, RouteStep(c, s, id, req, healthy).value)
  {
    hide MailOk, Mail, NoColon, OutputOf, AnswerTrue, Route;
    var u := RouteStep(c, s, id, req, healthy).value;
    SameMail(s, u);
    if c.transport.Mailboxes? {
      forall j | j in u.tickets && u.tickets[j].status.Running?
        ensures OwnMail(c, u, u.tickets[j])
      {
        if j in s.tickets {
          assert OwnMail(c, s, s.tickets[j]);
        }
      }
    }
  }

  lemma OtherStepFrame<H>(c: Config<H>, s: State<H>, step: Step)
    requires Next(c, s, step).Some? && !IsRequestStep(step)
    ensures var u := Next(c, s, step).value;
      && u.tickets == s.tickets && u.inFlight == s.inFlight && u.boxes == s.boxes
      && forall n :: n in u.engines ==> n in s.engines || (step.AttachNode? && n == step.nodeId)
  {
    hide CanHost, Committed, PlanValid, StepLedger, PrepareResult, ActivateResult, RetireResult, RouteStep, TicketStep, MailStep;
  }

  lemma OtherStepUnmixed<H>(c: Config<H>, s: State<H>, step: Step)
    requires Unmixed(c, s) && Careful(c, s, step) && Next(c, s, step).Some? && !IsRequestStep(step)
    ensures Unmixed(c, Next(c, s, step).value)
  {
    hide Next, TicketTrue, NoColon, RunningOwnMail, MailOk, IdIsFree;
    OtherStepFrame(c, s, step);
    MailFrame(c, s, Next(c, s, step).value);
  }

  lemma MailFrame<H>(c: Config<H>, s: State<H>, u: State<H>)
    requires u.tickets == s.tickets && u.inFlight == s.inFlight && u.boxes == s.boxes
    ensures RunningOwnMail(c, s) ==> RunningOwnMail(c, u)
    ensures MailOk(s) <==> MailOk(u)
  {
    hide OutputOf, NoColon, KeyOf, Mail, MailOk;
    SameMail(s, u);
    if RunningOwnMail(c, s) {
      forall j | j in u.tickets && u.tickets[j].status.Running?
        ensures OwnMail(c, u, u.tickets[j])
      {
        assert OwnMail(c, s, s.tickets[j]);
      }
    }
  }

  lemma StepUnmixed<H>(c: Config<H>, s: State<H>, step: Step)
    requires Safe(c, s) && Unmixed(c, s) && Careful(c, s, step) && Next(c, s, step).Some?
    ensures Unmixed(c, Next(c, s, step).value)
  {
    hide Safe, Unmixed, TicketStep, IdIsFree;
    match step
    case RouteRequest(id, req, healthy) => RouteUnmixed(c, s, id, req, healthy);
    case Deliver(_) => HandOverUnmixed(c, s, step);
    case LoseActivation(_) => HandOverUnmixed(c, s, step);
    case PushActivation(id) => PushUnmixed(c, s, id);
    case PullActivation(id) => PullUnmixed(c, s, id);
    case RunStage(id) => RunStageUnmixed(c, s, id);
    case MailArrives(i) => MailUnmixed(c, s, i, true);
    case MailIsLost(i) => MailUnmixed(c, s, i, false);
    case _ => OtherStepUnmixed(c, s, step);
  }

  lemma {:induction false} CarefulRunsAreUnmixed<H>(c: Config<H>, steps: seq<Step>, s: State<H>)
    requires Run(c, Init(c), steps) == Some(s) && CarefulRun(c, Init(c), steps)
    ensures Safe(c, s) && Unmixed(c, s)
  {
    hide Next, Safe, Careful;
    if steps == [] {
      RunsAreSafe(c, steps, s);
      assert Mail(Init(c)) == {};
    } else {
      var before := Run(c, Init(c), steps[..|steps| - 1]).value;
      CarefulRunsAreUnmixed(c, steps[..|steps| - 1], before);
      StepSafe(c, before, steps[|steps| - 1]);
      StepUnmixed(c, before, steps[|steps| - 1]);
    }
  }

  // ---------------------------------------------------------------- what a caller sees

  /** The text of every answer is read off exactly the layers that ran on the request's own prompt. */
  lemma ResultsAreOfTheirOwnLayers<H>(c: Config<H>, steps: seq<Step>, s: State<H>, id: nat)
    requires Run(c, Init(c), steps) == Some(s) && CarefulRun(c, Init(c), steps)
    requires id in s.tickets && s.tickets[id].status.Done?
    ensures var t := s.tickets[id];
      t.status.result.text
        == (c.net.readout)(RunLayers(c.net, LayersRun(t.ran), (c.net.embed)(t.req.prompt)), t.req.maxTokens)
  {
    CarefulRunsAreUnmixed(c, steps, s);
    var t := s.tickets[id];
    assert TicketOk(c, t) && TicketTrue(c, t);
    FinishedTicket(c, t);
  }

  /** With every node of the plan healthy at routing, the answer is the one a single machine would give,
      so it does not depend on how the layers were cut. */
  lemma ResultsEqualWholeModel<H>(c: Config<H>, steps: seq<Step>, s: State<H>, id: nat)
    requires Run(c, Init(c), steps) == Some(s) && CarefulRun(c, Init(c), steps)
    requires id in s.tickets && s.tickets[id].status.Done?
    requires forall p :: p in s.tickets[id].plan.placements ==> p.nodeId in s.tickets[id].healthy
    ensures s.tickets[id].status.result.text
         == (c.net.readout)(WholeModel(c.net, c.model.numLayers, s.tickets[id].req.prompt), s.tickets[id].req.maxTokens)
  {
    ResultsAreOfTheirOwnLayers(c, steps, s, id);
    ResultsComeFromOnePlan(c, steps, s, id);
  }
}
