/** When two requests can be mixed up: exactly when they share an id. */
module ProtocolSharedIds {
  import opened Types
  import opened TorchEngine
  import opened PipelinePlacement
  import opened Protocol
  import opened ProtocolSafety
  import opened ProtocolCutOver
  import opened ProtocolAnswers
  import opened ProtocolProgress
  import opened ProtocolMixing

  /** Two calls of handle_request that come in. */
  datatype Pair = Pair(a: nat, first: Request, b: nat, second: Request)

  /** The two are the only requests that come in, and nodes that join have plain names. */
  ghost predicate OnlyThePair(p: Pair, step: Step) {
    && (step.RouteRequest? ==> (step.ticket == p.a && step.req == p.first) || (step.ticket == p.b && step.req == p.second))
    && (step.AttachNode? ==> NoColon(step.nodeId))
  }

  /** Neither of the two is running when the other comes in. */
  ghost predicate ComeApart<H>(c: Config<H>, s: State<H>, p: Pair, steps: seq<Step>) {
    forall i :: 0 <= i < |steps| && steps[i].RouteRequest? ==>
      var u := Run(c, s, steps[..i]);
      u.Some? && !Running(u.value, p.a) && !Running(u.value, p.b)
  }

  predicate Running<H>(s: State<H>, id: nat) {
    id in s.tickets && s.tickets[id].status.Running?
  }

  /** The text the stages that ran give for this prompt. */
  ghost function TextFor<H>(c: Config<H>, t: Ticket<H>, req: Request): string {
    (c.net.readout)(RunLayers(c.net, LayersRun(t.ran), (c.net.embed)(req.prompt)), req.maxTokens)
  }

  /** What can happen when the two requests come in: the second is answered with a text that is not its own. */
  ghost predicate CanMixUp<H>(c: Config<H>, s: State<H>, p: Pair, apart: bool, more: seq<Step>) {
    && (forall i :: 0 <= i < |more| ==> OnlyThePair(p, more[i]))
    && (apart ==> ComeApart(c, s, p, more))
    && var end := Run(c, s, more);
      && end.Some? && p.b in end.value.tickets && end.value.tickets[p.b].status.Done?
      && end.value.tickets[p.b].status.result.text != TextFor(c, end.value.tickets[p.b], p.second)
  }

  // ---------------------------------------------------------------- different ids

  /** Every request so far is one from before or one of the two. */
  ghost predicate TicketsKnown<H>(p: Pair, s: State<H>, u: State<H>) {
    forall i :: i in u.tickets ==>
      || (i in s.tickets && u.tickets[i].req == s.tickets[i].req)
      || (i == p.a && u.tickets[i].req == p.first)
      || (i == p.b && u.tickets[i].req == p.second)
  }

  ghost predicate IdUnused<H>(s: State<H>, requestId: string) {
    forall i :: i in s.tickets ==> s.tickets[i].req.requestId != requestId
  }

  lemma StepKeepsTicketsKnown<H>(c: Config<H>, p: Pair, s: State<H>, u: State<H>, step: Step)
    requires TicketsKnown(p, s, u) && OnlyThePair(p, step) && Next(c, u, step).Some?
    ensures TicketsKnown(p, s, Next(c, u, step).value)
  {
    hide TicketStep, BeginStep, PrepareStep, CommitStep, ActivateStep, PublishStep, DrainStep, RetireStep, AttachStep, Route, KeyOf;
    if IsTicketStep(step) {
      StepKeepsSenders(c, u, step);
      TicketStepAddsNone(c, u, step);
    } else if step.MailArrives? || step.MailIsLost? {
      RequestStepFrame(c, u, step);
    } else if !step.RouteRequest? {
      OtherStepFrame(c, u, step);
    }
  }

  lemma TicketStepAddsNone<H>(c: Config<H>, s: State<H>, step: Step)
    requires IsTicketStep(step) && TicketStep(c, s, step).Some?
    ensures TicketStep(c, s, step).value.tickets.Keys == s.tickets.Keys
  {
    hide Attempted, KeyOf;
  }

  /** When the ids differ and are new, the continuation never uses an id twice. */
  lemma {:induction false} DifferentIdsStayFresh<H>(c: Config<H>, steps: seq<Step>, s: State<H>, p: Pair, more: seq<Step>)
    requires Run(c, Init(c), steps) == Some(s) && FreshIdsRun(c, Init(c), steps)
    requires p.a !in s.tickets && p.b !in s.tickets && p.first.requestId != p.second.requestId
    requires IdUnused(s, p.first.requestId) && IdUnused(s, p.second.requestId)
    requires (forall i :: 0 <= i < |more| ==> OnlyThePair(p, more[i])) && Run(c, s, more).Some?
    ensures Run(c, Init(c), steps + more) == Run(c, s, more) && FreshIdsRun(c, Init(c), steps + more)
    ensures TicketsKnown(p, s, Run(c, s, more).value)
  {
    hide Next;
    RunConcat(c, Init(c), steps, s, more);
    if more == [] {
      assert steps + more == steps;
    } else {
      var n := |more| - 1;
      DifferentIdsStayFresh(c, steps, s, p, more[..n]);
      assert (steps + more)[..|steps + more| - 1] == steps + more[..n];
      var u := Run(c, s, more[..n]).value;
      StepKeepsTicketsKnown(c, p, s, u, more[n]);
      RoutedIdIsNew(c, p, s, u, more[n]);
    }
  }

  lemma RoutedIdIsNew<H>(c: Config<H>, p: Pair, s: State<H>, u: State<H>, step: Step)
    requires p.first.requestId != p.second.requestId
    requires IdUnused(s, p.first.requestId) && IdUnused(s, p.second.requestId)
    requires TicketsKnown(p, s, u) && OnlyThePair(p, step) && Next(c, u, step).Some?
    ensures FreshIds(u, step)
  {
    hide NoColon, TicketStep, BeginStep, PrepareStep, CommitStep, ActivateStep, PublishStep, DrainStep, RetireStep, AttachStep,
      MailStep, Route;
  }

  lemma DifferentIdsAreNotMixedUp<H>(c: Config<H>, steps: seq<Step>, s: State<H>, p: Pair, apart: bool, more: seq<Step>)
    requires Run(c, Init(c), steps) == Some(s) && FreshIdsRun(c, Init(c), steps)
    requires p.a != p.b && p.a !in s.tickets && p.b !in s.tickets && p.first.requestId != p.second.requestId
    requires IdUnused(s, p.first.requestId) && IdUnused(s, p.second.requestId)
    ensures !CanMixUp(c, s, p, apart, more)
  {
    hide Run, FreshIdsRun, IdUnused, OnlyThePair, ComeApart, RunLayers, Safe, Unmixed, MailKnown, CarefulRun;
    if CanMixUp(c, s, p, apart, more) {
      DifferentIdsStayFresh(c, steps, s, p, more);
      var u := Run(c, s, more).value;
      assert u.tickets[p.b].req == p.second;
      FreshIdsAreCareful(c, steps + more, u);
      ResultsAreOfTheirOwnLayers(c, steps + more, u, p.b);
    }
  }

  // ---------------------------------------------------------------- one id

  /** No request comes in and no node joins. */
  ghost predicate Internal(steps: seq<Step>) {
    forall i :: 0 <= i < |steps| ==> !steps[i].RouteRequest? && !steps[i].AttachNode?
  }

  lemma StaysInternal(first: seq<Step>, more: seq<Step>)
    requires first != [] && Internal(first[1..]) && Internal(more)
    ensures Internal((first + more)[1..])
  {
    assert (first + more)[1..] == first[1..] + more;
  }

  lemma {:induction false} ServeStepsRouteFirst(transport: Transport, waiting: nat, id: nat, req: Request, healthy: set<NodeId>,
                                                stages: nat)
    ensures var r := ServeSteps(transport, waiting, id, req, healthy, stages);
      r != [] && r[0] == RouteRequest(id, req, healthy) && Internal(r[1..])
  {
    var r := ServeSteps(transport, waiting, id, req, healthy, stages);
    if stages > 0 {
      ServeStepsRouteFirst(transport, waiting, id, req, healthy, stages - 1);
      var before := ServeSteps(transport, waiting, id, req, healthy, stages - 1);
      assert r == before + r[|before|..];
      StaysInternal(before, r[|before|..]);
    }
  }

  /** Only two steps of the mixing run let a request in: the first one, and one after the first request has been sent on. */
  lemma MixingStepsRouteTwice(stages: nat, waiting: nat, p: Pair, givenUp: bool, healthy: set<NodeId>)
    requires stages > 0
    ensures var m := MixingSteps(stages, waiting, p.a, givenUp, p.first, p.b, p.second, healthy);
      var j := |FirstPart(stages, waiting, p, givenUp, healthy)|;
      && 0 < j < |m| && m[..j] == FirstPart(stages, waiting, p, givenUp, healthy)
      && m[0] == RouteRequest(p.a, p.first, healthy) && m[j] == RouteRequest(p.b, p.second, healthy)
      && (forall i :: 0 <= i < |m| && m[i].RouteRequest? ==> i == 0 || i == j)
      && (forall i :: 0 <= i < |m| ==> OnlyThePair(p, m[i]))
  {
    hide ServeSteps, NoColon;
    var serve1 := ServeSteps(Mailboxes, waiting, p.a, p.first, healthy, stages - 1);
    var serve2 := ServeSteps(Mailboxes, waiting + 1, p.b, p.second, healthy, stages - 1);
    ServeStepsRouteFirst(Mailboxes, waiting, p.a, p.first, healthy, stages - 1);
    ServeStepsRouteFirst(Mailboxes, waiting + 1, p.b, p.second, healthy, stages - 1);
    var m := MixingSteps(stages, waiting, p.a, givenUp, p.first, p.b, p.second, healthy);
    var j, k := |FirstPart(stages, waiting, p, givenUp, healthy)|, |serve2|;
    forall i | 0 <= i < |m|
      ensures i == 0 || i == j || (!m[i].RouteRequest? && !m[i].AttachNode?)
    {
      if 0 < i < |serve1| {
        assert m[i] == serve1[1..][i - 1];
      } else if j < i < j + k {
        assert m[i] == serve2[1..][i - j - 1];
      }
    }
  }

  function FirstPart(stages: nat, waiting: nat, p: Pair, givenUp: bool, healthy: set<NodeId>): seq<Step>
    requires stages > 0
  {
    ServeSteps(Mailboxes, waiting, p.a, p.first, healthy, stages - 1) + SendSteps(p.a, givenUp)
  }

  /** When the first request is given up before the second comes in, the two are never running together. */
  lemma GivenUpComesApart<H>(c: Config<H>, s: State<H>, p: Pair, healthy: set<NodeId>)
    requires Safe(c, s) && InService(s) && c.transport.Mailboxes? && |s.published.placements| >= 2
    requires forall q :: q in s.published.placements ==> q.nodeId in healthy
    requires p.a != p.b && p.a !in s.tickets && p.b !in s.tickets
    ensures ComeApart(c, s, p, MixingSteps(|s.published.placements|, |s.inFlight|, p.a, true, p.first, p.b, p.second, healthy))
  {
    hide Safe, InService, Run, ServeSteps, MixingSteps, ServedSoFar, OnlyThePair, Route;
    var stages, waiting := |s.published.placements|, |s.inFlight|;
    MixingStepsRouteTwice(stages, waiting, p, true, healthy);
    RouteOfHealthyPlan(c, s, healthy);
    var s1 := ServedUpTo(c, s, p.a, p.first, healthy, stages - 1);
    var s2 := PushStage(c, s, s1, p.a, true, p.first, healthy);
    RunConcat(c, s, ServeSteps(Mailboxes, waiting, p.a, p.first, healthy, stages - 1), s1, SendSteps(p.a, true));
    var m := MixingSteps(stages, waiting, p.a, true, p.first, p.b, p.second, healthy);
    NoSteps(c, s);
    assert m[..0] == [];
  }

  /** The nodes of a plan. */
  function AllNodes(ps: seq<Placement>): set<NodeId> {
    set q | q in ps :: q.nodeId
  }

  lemma SharedIdIsMixedUp<H>(c: Config<H>, steps: seq<Step>, s: State<H>, p: Pair, apart: bool) returns (more: seq<Step>)
    requires Run(c, Init(c), steps) == Some(s)
    requires InService(s) && c.transport.Mailboxes? && |s.published.placements| >= 2
    requires p.a != p.b && p.a !in s.tickets && p.b !in s.tickets && p.first.requestId == p.second.requestId
    requires ToldApart(c, p)
    ensures CanMixUp(c, s, p, apart, more)
  {
    hide Safe, InService, Run, MixingSteps, OnlyThePair, ComeApart, RunLayers;
    var healthy := AllNodes(s.published.placements);
    var stages, waiting := |s.published.placements|, |s.inFlight|;
    RunsAreSafe(c, steps, s);
    more := MixingSteps(stages, waiting, p.a, apart, p.first, p.b, p.second, healthy);
    MixingStepsRouteTwice(stages, waiting, p, apart, healthy);
    if apart {
      GivenUpComesApart(c, s, p, healthy);
    }
    SharedIdAnswersTheOtherPrompt(c, s, p.a, apart, p.first, p.b, p.second, healthy);
    var u := Run(c, s, more).value;
    RunConcat(c, Init(c), steps, s, more);
    ResultsComeFromOnePlan(c, steps + more, u, p.b);
  }

  // ---------------------------------------------------------------- the exact condition

  /** The model tells the two prompts apart. */
  ghost predicate ToldApart<H>(c: Config<H>, p: Pair) {
    (c.net.readout)(WholeModel(c.net, c.model.numLayers, p.first.prompt), p.second.maxTokens)
      != (c.net.readout)(WholeModel(c.net, c.model.numLayers, p.second.prompt), p.second.maxTokens)
  }

  /** With mailboxes and a plan of at least two stages in service, two new requests with prompts the model tells apart can be
      mixed up exactly when they have the same id. That they are never running at the same time makes no difference. */
  lemma MixedUpIff<H>(c: Config<H>, steps: seq<Step>, s: State<H>, p: Pair, apart: bool)
    requires Run(c, Init(c), steps) == Some(s) && FreshIdsRun(c, Init(c), steps)
    requires InService(s) && c.transport.Mailboxes? && |s.published.placements| >= 2
    requires p.a != p.b && p.a !in s.tickets && p.b !in s.tickets
    requires IdUnused(s, p.first.requestId) && IdUnused(s, p.second.requestId)
    requires ToldApart(c, p)
    ensures (exists more :: CanMixUp(c, s, p, apart, more)) <==> p.first.requestId == p.second.requestId
  {
    hide CanMixUp, Run, FreshIdsRun, InService, IdUnused, ToldApart;
    if p.first.requestId == p.second.requestId {
      var more := SharedIdIsMixedUp(c, steps, s, p, apart);
    } else {
      forall more
        ensures !CanMixUp(c, s, p, apart, more)
      {
        DifferentIdsAreNotMixedUp(c, steps, s, p, apart, more);
      }
    }
  }
}
