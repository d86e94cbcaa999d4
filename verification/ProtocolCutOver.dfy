/** Cut-over of the protocol: which node serves which epoch at every moment, when a reconfiguration can fail,
    and that a request routed in a quiet moment is answered in full. */
module ProtocolCutOver {
  import opened Types
  import opened Coverage
  import opened ModelManagement
  import opened TorchEngine
  import opened Coordinator
  import opened Protocol
  import opened ProtocolSafety

  // ---------------------------------------------------------------- epochs only grow

  lemma ControlStepGrows<H>(c: Config<H>, s: State<H>, step: Step)
    requires PlansOk(c, s) && Next(c, s, step).Some? && !IsRequestStep(step)
    ensures var u := Next(c, s, step).value;
      && s.nextEpoch <= u.nextEpoch
      && (forall e :: e in s.applied ==> e in u.applied && u.applied[e] == s.applied[e])
      && (forall e :: e in u.applied && e !in s.applied ==> e > s.nextEpoch)
  {
    hide Tiles, CanHost, Committed, PlanValid, StepLedger, PrepareResult, ActivateResult, RouteStep, TicketStep, MailStep;
  }

  lemma StepGrows<H>(c: Config<H>, s: State<H>, step: Step)
    requires Safe(c, s) && Next(c, s, step).Some?
    ensures var u := Next(c, s, step).value;
      && s.nextEpoch <= u.nextEpoch
      && (forall e :: e in s.applied ==> e in u.applied && u.applied[e] == s.applied[e])
      && (forall e :: e in u.applied && e !in s.applied ==> e > s.nextEpoch)
  {
    hide Next, TicketsOk, EnginesOk, Tiles;
    if IsRequestStep(step) {
      RequestStepFrame(c, s, step);
    } else {
      ControlStepGrows(c, s, step);
    }
  }

  /** Epochs strictly increase over a run, and an epoch once applied keeps its plan for ever. */
  lemma {:induction false} EpochsGrow<H>(c: Config<H>, s: State<H>, steps: seq<Step>, u: State<H>)
    requires Safe(c, s) && Run(c, s, steps) == Some(u)
    ensures Safe(c, u)
    ensures s.nextEpoch <= u.nextEpoch
    ensures forall e :: e in s.applied ==> e in u.applied && u.applied[e] == s.applied[e]
    ensures forall e :: e in u.applied && e !in s.applied ==> e > s.nextEpoch
  {
    hide Next, Safe;
    if steps != [] {
      var before := Run(c, s, steps[..|steps| - 1]).value;
      EpochsGrow(c, s, steps[..|steps| - 1], before);
      StepSafe(c, before, steps[|steps| - 1]);
      StepGrows(c, before, steps[|steps| - 1]);
    }
  }

  // ---------------------------------------------------------------- disciplined drains

  /** A drain may only name an epoch that has already been issued. */
  predicate Disciplined<H>(s: State<H>, step: Step) {
    step.BeginDrain? ==> step.epoch <= s.nextEpoch
  }

  ghost predicate DisciplinedRun<H>(c: Config<H>, s: State<H>, steps: seq<Step>) {
    steps != [] ==>
      && DisciplinedRun(c, s, steps[..|steps| - 1])
      && Run(c, s, steps[..|steps| - 1]).Some?
      && Disciplined(Run(c, s, steps[..|steps| - 1]).value, steps[|steps| - 1])
  }

  /** The published plan is in service on all of its nodes. */
  ghost predicate InService<H>(s: State<H>) {
    && s.current.Some? && s.published == s.current.value && s.published.epoch == s.nextEpoch
    && forall p :: p in s.published.placements ==> Serving(s.engines, s.nextEpoch, p)
  }

  /** The node has the placement's range prepared under this epoch. */
  ghost predicate ReadyOn<H>(s: State<H>, epoch: int, p: Placement) {
    p.nodeId in s.engines && StageReady(s.engines[p.nodeId], epoch, p)
  }

  ghost predicate ActiveOn<H>(s: State<H>, epoch: int, n: NodeId) {
    n in s.engines && s.engines[n].active == Some(epoch)
  }

  /** The node has already been switched by the activation under way. */
  ghost predicate Switched<H>(s: State<H>, n: NodeId) {
    s.phase.Activating? && s.phase.done <= |s.phase.plan| && n in NodesOf(s.phase.plan[..s.phase.done])
  }

  ghost predicate DrainsOk<H>(s: State<H>) {
    forall e :: e in s.draining ==> e <= s.nextEpoch && (s.current.Some? ==> e != s.nextEpoch)
  }

  /** Whoever serves the current plan has it prepared, and has it active unless the next plan has already taken the node. */
  ghost predicate CurrentServed<H>(s: State<H>) {
    s.current.Some? ==> forall p :: p in s.current.value.placements ==>
      ReadyOn(s, s.nextEpoch, p) && (ActiveOn(s, s.nextEpoch, p.nodeId) || Switched(s, p.nodeId))
  }

  /** The plan being installed is prepared as far as the coordinator has got, and active as far as it has got. */
  ghost predicate NextOnTrack<H>(s: State<H>) {
    match s.phase
    case Idle => true
    case Preparing(e, plan, k) => k <= |plan| && forall i :: 0 <= i < k ==> ReadyOn(s, e, plan[i])
    case Activating(e, plan, k) =>
      && k <= |plan|
      && (forall i :: 0 <= i < |plan| ==> ReadyOn(s, e, plan[i]))
      && (forall i :: 0 <= i < k ==> ActiveOn(s, e, plan[i].nodeId))
  }

  ghost predicate Orderly<H>(s: State<H>) {
    DrainsOk(s) && CurrentServed(s) && NextOnTrack(s)
  }

  // ---------------------------------------------------------------- every disciplined step

  lemma PrepareStepOrderly<H>(c: Config<H>, s: State<H>, fetched: bool)
    requires Safe(c, s) && Orderly(s) && PrepareStep(c, s, fetched).Some?
    ensures Orderly(PrepareStep(c, s, fetched).value)
  {
    hide TicketsOk, EnginesOk, Tiles, StageReady, PrepareResult, SameBut;
    var u := PrepareStep(c, s, fetched).value;
    var k, plan, epoch := s.phase.done, s.phase.plan, s.phase.epoch;
    var p := plan[k];
    if u.phase.Preparing? {
      PrepareReadies(s.engines[p.nodeId], p, s.current, epoch, ModelSource(AssignmentFor(s.current, p, epoch), "model-store"));
      assert DistinctNodes(plan) by {
        assert Tiles(plan, c.model.numLayers);
        TilesHasDistinctNodes(plan, c.model.numLayers);
      }
      assert forall i :: 0 <= i < k ==> plan[i].nodeId != p.nodeId;
      assert NextOnTrack(u);
      assert CurrentServed(u) by {
        OtherEpochUntouched(s, u, p.nodeId, s.nextEpoch, epoch);
      }
    }
  }

  lemma TilesHasDistinctNodes(ps: seq<Placement>, numLayers: int)
    requires Tiles(ps, numLayers)
    ensures DistinctNodes(ps)
  {
  }

  /** Changing one epoch on one node leaves what it has prepared under another epoch as it was. */
  lemma OtherEpochUntouched<H>(s: State<H>, u: State<H>, n: NodeId, epoch: int, changed: int)
    requires n in s.engines && n in u.engines && u.engines == s.engines[n := u.engines[n]]
    requires SameBut(s.engines[n], u.engines[n], changed) && epoch != changed
    ensures forall p :: ReadyOn(s, epoch, p) ==> ReadyOn(u, epoch, p)
  {
    OtherEpochsKept(s.engines[n], u.engines[n], epoch, changed);
  }

  lemma ActivateStepOrderly<H>(c: Config<H>, s: State<H>)
    requires Safe(c, s) && Orderly(s) && ActivateStep(s).Some?
    ensures Orderly(ActivateStep(s).value)
    ensures ActivateStep(s).value.phase == Activating(s.phase.epoch, s.phase.plan, s.phase.done + 1)
  {
    hide TicketsOk, EnginesOk, Tiles;
    var k, plan := s.phase.done, s.phase.plan;
    assert ReadyOn(s, s.phase.epoch, plan[k]);
    var u := ActivateStep(s).value;
    assert NodesOf(plan[..k + 1]) == NodesOf(plan[..k]) + [plan[k].nodeId];
    assert forall p :: ReadyOn(s, s.nextEpoch, p) ==> ReadyOn(u, s.nextEpoch, p);
  }

  lemma PublishStepOrderly<H>(c: Config<H>, s: State<H>)
    requires Safe(c, s) && Orderly(s) && PublishStep(s).Some?
    ensures Orderly(PublishStep(s).value)
  {
    hide TicketsOk, EnginesOk, Tiles, StageReady;
    var u := PublishStep(s).value;
    forall p | p in s.phase.plan
      ensures ReadyOn(u, u.nextEpoch, p) && ActiveOn(u, u.nextEpoch, p.nodeId)
    {
      var i :| 0 <= i < |s.phase.plan| && s.phase.plan[i] == p;
      assert ReadyOn(s, s.phase.epoch, s.phase.plan[i]) && ActiveOn(s, s.phase.epoch, s.phase.plan[i].nodeId);
    }
  }

  lemma RetireStepOrderly<H>(c: Config<H>, s: State<H>, e: int, n: NodeId)
    requires Safe(c, s) && Orderly(s) && RetireStep(s, e, n).Some?
    ensures Orderly(RetireStep(s, e, n).value)
  {
    hide TicketsOk, EnginesOk, Tiles;
    var u := RetireStep(s, e, n).value;
    assert forall x, p :: x != e && ReadyOn(s, x, p) ==> ReadyOn(u, x, p);
    assert forall x, m :: x != e && ActiveOn(s, x, m) ==> ActiveOn(u, x, m);
  }

  /** What a step may change without disturbing the order: new nodes, old drains, and a phase that is on track by itself. */
  lemma OrderlyFrame<H>(s: State<H>, u: State<H>)
    requires Orderly(s) && u.current == s.current && u.nextEpoch == s.nextEpoch
    requires forall n :: n in s.engines ==> n in u.engines && u.engines[n] == s.engines[n]
    requires DrainsOk(u)
    requires u.phase == s.phase || (!s.phase.Activating? && NextOnTrack(u))
    ensures Orderly(u)
  {
    hide StageReady, DrainsOk;
    assert forall e, p :: ReadyOn(s, e, p) ==> ReadyOn(u, e, p);
    assert forall e, n :: ActiveOn(s, e, n) ==> ActiveOn(u, e, n);
    assert forall n :: Switched(s, n) ==> Switched(u, n);
  }

  /** Steps of the controller and the nodes that neither prepare, activate, publish nor retire. */
  lemma QuietStepFrame<H>(c: Config<H>, s: State<H>, step: Step)
    requires PlansOk(c, s) && NextOnTrack(s) && DrainsOk(s) && Disciplined(s, step) && Next(c, s, step).Some?
    requires !IsRequestStep(step) && !step.PrepareNext? && !step.ActivateNext? && !step.PublishPlan? && !step.RetireOn?
    ensures var u := Next(c, s, step).value;
      && u.current == s.current && u.nextEpoch == s.nextEpoch
      && (forall n :: n in s.engines ==> n in u.engines && u.engines[n] == s.engines[n])
      && DrainsOk(u) && (u.phase == s.phase || (!s.phase.Activating? && NextOnTrack(u)))
  {
    hide Tiles, StageReady, CanHost, Committed, PlanValid, StepLedger, RouteStep, TicketStep, MailStep;
  }

  lemma OtherStepOrderly<H>(c: Config<H>, s: State<H>, step: Step)
    requires Safe(c, s) && Orderly(s) && Disciplined(s, step) && Next(c, s, step).Some?
    requires !step.PrepareNext? && !step.ActivateNext? && !step.PublishPlan? && !step.RetireOn?
    ensures Orderly(Next(c, s, step).value)
  {
    hide Next, TicketsOk, EnginesOk, CurrentServed, Tiles, StageReady;
    var u := Next(c, s, step).value;
    if IsRequestStep(step) {
      RequestStepFrame(c, s, step);
    } else {
      QuietStepFrame(c, s, step);
    }
    OrderlyFrame(s, u);
  }

  lemma StepOrderly<H>(c: Config<H>, s: State<H>, step: Step)
    requires Safe(c, s) && Orderly(s) && Disciplined(s, step) && Next(c, s, step).Some?
    ensures Orderly(Next(c, s, step).value)
  {
    hide Safe, Orderly, Disciplined;
    match step
    case PrepareNext(fetched) => PrepareStepOrderly(c, s, fetched);
    case ActivateNext => ActivateStepOrderly(c, s);
    case PublishPlan => PublishStepOrderly(c, s);
    case RetireOn(e, n) => RetireStepOrderly(c, s, e, n);
    case _ => OtherStepOrderly(c, s, step);
  }

  lemma {:induction false} DisciplinedRunsAreOrderly<H>(c: Config<H>, steps: seq<Step>, s: State<H>)
    requires Run(c, Init(c), steps) == Some(s) && DisciplinedRun(c, Init(c), steps)
    ensures Safe(c, s) && Orderly(s)
  {
    hide Next, Safe, Orderly, Disciplined;
    if steps == [] {
      assert Safe(c, s) by { RunsAreSafe(c, steps, s); }
      assert Orderly(Init(c)) by { InitOrderly(c); }
    } else {
      var before := Run(c, Init(c), steps[..|steps| - 1]).value;
      DisciplinedRunsAreOrderly(c, steps[..|steps| - 1], before);
      StepSafe(c, before, steps[|steps| - 1]);
      StepOrderly(c, before, steps[|steps| - 1]);
    }
  }

  lemma InitOrderly<H>(c: Config<H>)
    ensures Orderly(Init(c))
  {
  }

  // ---------------------------------------------------------------- the cut-over invariant

  lemma SwitchedServesNext<H>(c: Config<H>, s: State<H>, n: NodeId)
    requires PlansOk(c, s) && NextOnTrack(s) && Switched(s, n)
    ensures ActiveOn(s, s.nextEpoch + 1, n)
  {
    hide Tiles, ReadyOn;
    var i :| 0 <= i < s.phase.done && NodesOf(s.phase.plan[..s.phase.done])[i] == n;
    assert ActiveOn(s, s.phase.epoch, s.phase.plan[i].nodeId);
  }

  /** At every moment of a disciplined run at which no activation is under way, the published plan is the current one and
      every node of it has that epoch active with exactly the plan's range; while one is under way, each of those nodes
      still has its range prepared and serves either this epoch or the next. */
  lemma CutOverHolds<H>(c: Config<H>, steps: seq<Step>, s: State<H>)
    requires Run(c, Init(c), steps) == Some(s) && DisciplinedRun(c, Init(c), steps)
    requires s.current.Some?
    ensures s.published == s.current.value && s.published.epoch == s.nextEpoch
    ensures !s.phase.Activating? ==> forall p :: p in s.published.placements ==> Serving(s.engines, s.nextEpoch, p)
    ensures s.phase.Activating? ==> forall p :: p in s.published.placements ==>
      && ReadyOn(s, s.nextEpoch, p)
      && (ActiveOn(s, s.nextEpoch, p.nodeId) || ActiveOn(s, s.nextEpoch + 1, p.nodeId))
  {
    hide StageReady, TicketsOk, EnginesOk, Tiles, NextOnTrack, DrainsOk;
    DisciplinedRunsAreOrderly(c, steps, s);
    forall p | p in s.published.placements && Switched(s, p.nodeId)
      ensures ActiveOn(s, s.nextEpoch + 1, p.nodeId)
    {
      SwitchedServesNext(c, s, p.nodeId);
    }
  }

  // ---------------------------------------------------------------- when a reconfiguration fails

  /** What a request can see of the cluster, and what the operator can see of the ledger. */
  ghost predicate SameView<H>(s: State<H>, u: State<H>) {
    && u.current == s.current && u.published == s.published && u.nextEpoch == s.nextEpoch
    && u.ledger == s.ledger && u.applied == s.applied && u.tickets == s.tickets
    && u.engines.Keys == s.engines.Keys
    && forall n :: n in s.engines ==>
      && u.engines[n].active == s.engines[n].active
      && SameBut(s.engines[n], u.engines[n], s.nextEpoch + 1)
  }

  /** Up to and including the ledger check nothing visible has changed, so giving up there leaves no trace. */
  lemma NothingVisibleBeforeCommit<H>(c: Config<H>, s: State<H>, step: Step)
    requires Safe(c, s) && Next(c, s, step).Some?
    requires step.BeginPlan? || step.PrepareNext? || (step.CommitPlan? && !Next(c, s, step).value.phase.Activating?)
    ensures SameView(s, Next(c, s, step).value)
  {
    hide Safe, CanHost, Committed, PlanValid;
    if step.PrepareNext? {
      PrepareIsInvisible(c, s, step.fetched);
    }
  }

  lemma PrepareIsInvisible<H>(c: Config<H>, s: State<H>, fetched: bool)
    requires Safe(c, s) && PrepareStep(c, s, fetched).Some?
    ensures SameView(s, PrepareStep(c, s, fetched).value)
  {
    hide Safe;
    PhaseFacts(c, s);
    if s.phase.done < |s.phase.plan| {
      var p := s.phase.plan[s.phase.done];
      if p.layerRange.Some? && p.nodeId in s.engines {
        PrepareReadies(s.engines[p.nodeId], p, s.current, s.phase.epoch,
                       ModelSource(AssignmentFor(s.current, p, s.phase.epoch), "model-store"));
      }
    }
  }

  /** In a disciplined run, once the ledger has accepted the plan no activation can fail. */
  lemma ActivationNeverFails<H>(c: Config<H>, steps: seq<Step>, s: State<H>)
    requires Run(c, Init(c), steps) == Some(s) && DisciplinedRun(c, Init(c), steps)
    requires s.phase.Activating? && s.phase.done < |s.phase.plan|
    ensures ActivateStep(s).Some?
    ensures ActivateStep(s).value.phase == Activating(s.phase.epoch, s.phase.plan, s.phase.done + 1)
  {
    DisciplinedRunsAreOrderly(c, steps, s);
    ActivateStepOrderly(c, s);
  }

  /** The discipline is needed. At any moment at which a plan is fully prepared and the ledger would accept it, draining
      the epoch about to be installed makes the activation fail after the ledger has been rewritten: the plan in service
      is still the old one, and the books say otherwise. */
  lemma DrainingTheNextEpochBreaksIt<H>(c: Config<H>, s: State<H>)
    requires Safe(c, s) && s.phase.Preparing? && s.phase.done == |s.phase.plan|
    requires CanHost(c.model, s.ledger, s.phase.plan)
    requires s.phase.plan != [] && s.phase.plan[0].nodeId in s.engines
    ensures var e, n := s.phase.epoch, s.phase.plan[0].nodeId;
      var end := Run(c, s, [BeginDrain(e), RetireOn(e, n), CommitPlan, ActivateNext]);
      && !Disciplined(s, BeginDrain(e))
      && end.Some? && end.value.phase.Idle?
      && end.value.current == s.current && end.value.published == s.published
      && end.value.ledger == Committed(c.model, s.ledger, s.phase.plan)
  {
    hide Safe, CanHost, Committed, Next, Run;
    PhaseFacts(c, s);
    var e, n := s.phase.epoch, s.phase.plan[0].nodeId;
    var steps := [BeginDrain(e), RetireOn(e, n), CommitPlan, ActivateNext];
    var drained := DrainStep(s, e).value;
    var retired := RetireStep(drained, e, n).value;
    var committed := CommitStep(c, retired).value;
    NextDrain(c, s, e);
    NextRetire(c, drained, e, n);
    NextCommit(c, retired);
    NextActivate(c, committed);
    assert e !in committed.engines[n].prepared;
    FourSteps(c, s, drained, retired, committed, steps);
  }

  lemma NextDrain<H>(c: Config<H>, s: State<H>, e: int)
    ensures Next(c, s, BeginDrain(e)) == DrainStep(s, e)
  {
  }

  lemma NextRetire<H>(c: Config<H>, s: State<H>, e: int, n: NodeId)
    ensures Next(c, s, RetireOn(e, n)) == RetireStep(s, e, n)
  {
  }

  lemma NextCommit<H>(c: Config<H>, s: State<H>)
    ensures Next(c, s, CommitPlan) == CommitStep(c, s)
  {
  }

  lemma NextActivate<H>(c: Config<H>, s: State<H>)
    ensures Next(c, s, ActivateNext) == ActivateStep(s)
  {
  }

  lemma PhaseFacts<H>(c: Config<H>, s: State<H>)
    requires Safe(c, s)
    ensures !s.phase.Idle? ==> s.phase.epoch == s.nextEpoch + 1 && s.phase.plan != [] && s.phase.done <= |s.phase.plan|
    ensures s.current.Some? ==> s.current.value.epoch == s.nextEpoch
  {
  }

  lemma FourSteps<H>(c: Config<H>, s0: State<H>, s1: State<H>, s2: State<H>, s3: State<H>, steps: seq<Step>)
    requires |steps| == 4
    requires Next(c, s0, steps[0]) == Some(s1) && Next(c, s1, steps[1]) == Some(s2) && Next(c, s2, steps[2]) == Some(s3)
    ensures Run(c, s0, steps) == Next(c, s3, steps[3])
  {
    hide Next;
    ThreeSteps(c, s0, s1, s2, steps[0], steps[1], steps[2]);
    RunOneMore(c, s0, [steps[0], steps[1], steps[2]], s3, steps[3]);
    assert steps == [steps[0], steps[1], steps[2]] + [steps[3]];
  }
}
