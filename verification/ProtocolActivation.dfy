/** When an activation can fail, over all runs and whatever is drained in them. */
module ProtocolActivation {
  import opened Types
  import opened Coverage
  import opened ModelManagement
  import opened TorchEngine
  import opened Coordinator
  import opened Protocol
  import opened ProtocolSafety
  import opened ProtocolCutOver
  import opened ProtocolDrains

  // ---------------------------------------------------------------- only a drain of the epoch itself can do it

  /** The plan being installed is prepared as far as the coordinator has got. */
  ghost predicate PreparedSoFar<H>(s: State<H>) {
    match s.phase
    case Idle => true
    case Preparing(e, plan, k) => k <= |plan| && forall i :: 0 <= i < k ==> ReadyOn(s, e, plan[i])
    case Activating(e, plan, k) => k <= |plan| && forall i :: 0 <= i < |plan| ==> ReadyOn(s, e, plan[i])
  }

  /** Unless a drain of the epoch being installed has been begun, nothing of it is lost. */
  ghost predicate NextUntouched<H>(s: State<H>) {
    !s.phase.Idle? && s.phase.epoch !in s.draining ==> PreparedSoFar(s)
  }

  lemma PrepareKeepsUntouched<H>(c: Config<H>, s: State<H>, fetched: bool)
    requires Safe(c, s) && NextUntouched(s) && PrepareStep(c, s, fetched).Some?
    ensures NextUntouched(PrepareStep(c, s, fetched).value)
  {
    hide Safe, StageReady, PrepareResult, SameBut;
    var u := PrepareStep(c, s, fetched).value;
    var k, plan, epoch := s.phase.done, s.phase.plan, s.phase.epoch;
    var p := plan[k];
    if u.phase.Preparing? && epoch !in s.draining {
      PrepareReadies(s.engines[p.nodeId], p, s.current, epoch, ModelSource(AssignmentFor(s.current, p, epoch), "model-store"));
      PlanNodesDistinct(c, s);
      assert forall i :: 0 <= i < k ==> plan[i].nodeId != p.nodeId;
    }
  }

  lemma PlanNodesDistinct<H>(c: Config<H>, s: State<H>)
    requires Safe(c, s)
    ensures !s.phase.Idle? ==> DistinctNodes(s.phase.plan) && s.phase.plan != []
  {
    hide TicketsOk, EnginesOk;
    if !s.phase.Idle? {
      assert Tiles(s.phase.plan, c.model.numLayers);
    }
  }

  lemma UntouchedFrame<H>(s: State<H>, u: State<H>)
    requires NextUntouched(s) && s.draining <= u.draining
    requires forall n :: n in s.engines ==> n in u.engines && u.engines[n] == s.engines[n]
    requires u.phase == s.phase || u.phase.Idle? || u.phase.done == 0
    requires u.phase == s.phase || u.phase.Idle? || u.phase.Preparing? || (s.phase.Preparing?
      && u.phase == Activating(s.phase.epoch, s.phase.plan, 0) && s.phase.done == |s.phase.plan|)
    ensures NextUntouched(u)
  {
    hide StageReady;
    assert forall e, p :: ReadyOn(s, e, p) ==> ReadyOn(u, e, p);
  }

  lemma RetireKeepsUntouched<H>(s: State<H>, e: int, n: NodeId)
    requires NextUntouched(s) && RetireStep(s, e, n).Some?
    ensures NextUntouched(RetireStep(s, e, n).value)
  {
    assert forall x, p :: x != e && ReadyOn(s, x, p) ==> ReadyOn(RetireStep(s, e, n).value, x, p);
  }

  lemma ActivateKeepsUntouched<H>(s: State<H>)
    requires NextUntouched(s) && ActivateStep(s).Some?
    ensures NextUntouched(ActivateStep(s).value)
  {
    hide ReadyOn;
    ActivateKeepsReady(s);
  }

  lemma QuietStep<H>(c: Config<H>, s: State<H>, step: Step)
    requires Next(c, s, step).Some? && !IsRequestStep(step) && !step.PrepareNext? && !step.ActivateNext? && !step.RetireOn?
    ensures var u := Next(c, s, step).value;
      && s.draining <= u.draining
      && (forall n :: n in s.engines ==> n in u.engines && u.engines[n] == s.engines[n])
      && (u.phase == s.phase || u.phase.Idle? || u.phase.done == 0)
      && (u.phase == s.phase || u.phase.Idle? || u.phase.Preparing? || (s.phase.Preparing?
            && u.phase == Activating(s.phase.epoch, s.phase.plan, 0) && s.phase.done == |s.phase.plan|))
  {
    hide CanHost, Committed, PlanValid, StepLedger, RouteStep, TicketStep, MailStep;
  }

  lemma StepKeepsUntouched<H>(c: Config<H>, s: State<H>, step: Step)
    requires Safe(c, s) && NextUntouched(s) && Next(c, s, step).Some?
    ensures NextUntouched(Next(c, s, step).value)
  {
    hide Safe, NextUntouched, TicketStep, RouteStep, MailStep, BeginStep, CommitStep, PublishStep, DrainStep, AttachStep,
      PrepareStep, ActivateStep, RetireStep, StepLedger;
    match step
    case PrepareNext(fetched) => PrepareKeepsUntouched(c, s, fetched);
    case ActivateNext => ActivateKeepsUntouched(s);
    case RetireOn(e, n) => RetireKeepsUntouched(s, e, n);
    case _ =>
      if IsRequestStep(step) {
        RequestStepFrame(c, s, step);
      } else {
        QuietStep(c, s, step);
      }
      UntouchedFrame(s, Next(c, s, step).value);
  }

  lemma {:induction false} RunsKeepUntouched<H>(c: Config<H>, steps: seq<Step>, s: State<H>)
    requires Run(c, Init(c), steps) == Some(s)
    ensures Safe(c, s) && NextUntouched(s)
  {
    hide Next, Safe;
    if steps == [] {
      RunsAreSafe(c, steps, s);
    } else {
      var before := Run(c, Init(c), steps[..|steps| - 1]).value;
      RunsKeepUntouched(c, steps[..|steps| - 1], before);
      StepSafe(c, before, steps[|steps| - 1]);
      StepKeepsUntouched(c, before, steps[|steps| - 1]);
    }
  }

  /** The next activation call of this epoch fails, after the ledger was rewritten for its plan. */
  ghost predicate FailsToActivate<H>(s: State<H>, epoch: int) {
    && s.phase.Activating? && s.phase.epoch == epoch && s.phase.done < |s.phase.plan|
    && ActivateStep(s).Some? && ActivateStep(s).value.phase.Idle?
  }

  /** In any run, whatever epochs are drained in it: an activation only ever fails when a drain of its own epoch was begun. */
  lemma OnlyItsOwnDrain<H>(c: Config<H>, steps: seq<Step>, s: State<H>, epoch: int)
    requires Run(c, Init(c), steps) == Some(s) && FailsToActivate(s, epoch)
    ensures epoch in s.draining
  {
    hide Safe, Run;
    RunsKeepUntouched(c, steps, s);
    if epoch !in s.draining {
      assert ReadyOn(s, epoch, s.phase.plan[s.phase.done]);
      ReadyIsPrepared(s, epoch, s.phase.plan[s.phase.done]);
      assert false;
    }
  }

  // ---------------------------------------------------------------- and it always can

  /** A reconfiguration that has not reached its activation can be given up: a prepare fails, or a node goes offline before
      the ledger is asked. */
  lemma GiveUp<H>(c: Config<H>, s: State<H>) returns (steps: seq<Step>, u: State<H>)
    requires Safe(c, s) && !s.phase.Activating?
    ensures NoDrains(steps) && Run(c, s, steps) == Some(u)
    ensures u.phase.Idle? && u.draining == s.draining && u.nextEpoch == s.nextEpoch
  {
    hide Run, Safe, CanHost, Committed, StepLedger;
    PhaseFacts(c, s);
    match s.phase {
      case Idle =>
        steps, u := [], s;
        Standing(c, s);
      case Preparing(e, plan, k) =>
        if k < |plan| {
          steps, u := [PrepareNext(false)], PrepareStep(c, s, false).value;
          OneStep(c, s, PrepareNext(false));
        } else {
          var offline := NodeEvent(SetAlive(plan[0].nodeId, false));
          var s1 := s.(ledger := StepLedger(c.model, s.ledger, SetAlive(plan[0].nodeId, false)));
          CannotHostOffline(c.model, s.ledger, plan);
          u := CommitStep(c, s1).value;
          OneStep(c, s, offline);
          RunOneMore(c, s, [offline], s1, CommitPlan);
          steps := [offline] + [CommitPlan];
        }
    }
  }

  lemma CannotHostOffline(m: Model, l: Ledger, ps: seq<Placement>)
    requires ps != []
    ensures !CanHost(m, StepLedger(m, l, SetAlive(ps[0].nodeId, false)), ps)
  {
    hide PlacementMemory, Tiles;
    ByNodeEntries(ps);
    assert ps[0] in ps;
  }

  /** A plan fully prepared, its epoch drained, its first node retired, the ledger rewritten: now the activation fails. */
  lemma RetireBeforeCommit<H>(c: Config<H>, s: State<H>, n: NodeId) returns (steps: seq<Step>, u: State<H>)
    requires CanInstall(c, s, n) && s.nextEpoch + 1 in s.draining
    ensures NoDrains(steps) && Run(c, s, steps) == Some(u) && FailsToActivate(u, s.nextEpoch + 1)
  {
    hide Run, PlacementMemory, Room, PlanValid, CanHost, Committed, Next;
    var epoch := s.nextEpoch + 1;
    WholeModelFits(c.model, s.ledger, n);
    var prepared := PrepareWhole(c, s, n);
    var retired := RetireStep(prepared, epoch, n).value;
    u := CommitStep(c, retired).value;
    NextRetire(c, prepared, epoch, n);
    NextCommit(c, retired);
    var preparing := [BeginPlan([WholeOn(c.model, n)]), PrepareNext(true)];
    RunOneMore(c, s, preparing, prepared, RetireOn(epoch, n));
    RunOneMore(c, s, preparing + [RetireOn(epoch, n)], retired, CommitPlan);
    steps := preparing + [RetireOn(epoch, n)] + [CommitPlan];
  }

  /** A plan is installed up to the epoch before, if it has not come that far yet. */
  lemma InstallBefore<H>(c: Config<H>, s: State<H>, n: NodeId, epoch: int) returns (steps: seq<Step>, u: State<H>)
    requires CanInstall(c, s, n) && epoch > s.nextEpoch
    ensures NoDrains(steps) && Run(c, s, steps) == Some(u)
    ensures CanInstall(c, u, n) && u.draining == s.draining && u.nextEpoch == epoch - 1
  {
    hide Run, CanInstall;
    if epoch - 1 > s.nextEpoch {
      steps, u := InstallUpTo(c, s, n, epoch - 1);
    } else {
      steps, u := [], s;
      Standing(c, s);
    }
  }

  lemma DrainedEpochCanFail<H>(c: Config<H>, s: State<H>, epoch: int) returns (steps: seq<Step>, u: State<H>)
    requires Safe(c, s) && c.model.numLayers > 0 && !s.phase.Activating? && epoch in s.draining && epoch > s.nextEpoch
    ensures NoDrains(steps) && Run(c, s, steps) == Some(u) && FailsToActivate(u, epoch)
  {
    hide Run, Safe, CanInstall, FailsToActivate;
    var rest, quiet := GiveUp(c, s);
    var n, joining, joined := JoinNewNode(c, quiet);
    var installing, before := InstallBefore(c, joined, n, epoch);
    var breaking;
    breaking, u := RetireBeforeCommit(c, before, n);
    RunConcat(c, s, rest, quiet, joining);
    RunConcat(c, s, rest + joining, joined, installing);
    RunConcat(c, s, rest + joining + installing, before, breaking);
    steps := rest + joining + installing + breaking;
  }

  // ---------------------------------------------------------------- the exact condition

  /** What can happen with no further drain: the activation of this epoch fails. */
  ghost predicate CanFail<H>(c: Config<H>, s: State<H>, epoch: int, more: seq<Step>) {
    NoDrains(more) && Run(c, s, more).Some? && FailsToActivate(Run(c, s, more).value, epoch)
  }

  lemma {:induction false} NoDrainsNoChange<H>(c: Config<H>, s: State<H>, more: seq<Step>)
    requires NoDrains(more) && Run(c, s, more).Some?
    ensures Run(c, s, more).value.draining == s.draining
  {
    hide Next;
    if more != [] {
      var k := |more| - 1;
      NoDrainsNoChange(c, s, more[..k]);
      StepKeepsDraining(c, Run(c, s, more[..k]).value, more[k]);
    }
  }

  lemma StepKeepsDraining<H>(c: Config<H>, s: State<H>, step: Step)
    requires Next(c, s, step).Some? && !step.BeginDrain?
    ensures Next(c, s, step).value.draining == s.draining
  {
    hide TicketStep, RouteStep, MailStep, CanHost, Committed, PlanValid, StepLedger, PrepareResult, ActivateResult, RetireResult;
    if IsRequestStep(step) {
      RequestStepFrame(c, s, step);
    }
  }

  /** From any state of any run with no activation under way: an activation of an epoch still to come can fail, without any
      further drain, exactly when a drain of that very epoch has been begun. */
  lemma ActivationCanFailIff<H>(c: Config<H>, steps: seq<Step>, s: State<H>, epoch: int)
    requires Run(c, Init(c), steps) == Some(s) && c.model.numLayers > 0 && !s.phase.Activating? && epoch > s.nextEpoch
    ensures (exists more :: CanFail(c, s, epoch, more)) <==> epoch in s.draining
  {
    hide Run, Safe, FailsToActivate;
    if epoch in s.draining {
      RunsAreSafe(c, steps, s);
      var more, u := DrainedEpochCanFail(c, s, epoch);
      assert CanFail(c, s, epoch, more);
    } else {
      forall more | CanFail(c, s, epoch, more)
        ensures false
      {
        RunConcat(c, Init(c), steps, s, more);
        OnlyItsOwnDrain(c, steps + more, Run(c, s, more).value, epoch);
        NoDrainsNoChange(c, s, more);
      }
    }
  }

  /** So a call of drain_old_epoch that is accepted puts exactly the activation of its own epoch at risk. */
  lemma DrainEndangersItsEpochOnly<H>(c: Config<H>, steps: seq<Step>, s: State<H>, e: int, epoch: int)
    requires Run(c, Init(c), steps) == Some(s) && c.model.numLayers > 0 && !s.phase.Activating?
    requires epoch > s.nextEpoch && epoch !in s.draining && DrainStep(s, e).Some?
    ensures (exists more :: CanFail(c, DrainStep(s, e).value, epoch, more)) <==> e == epoch
  {
    hide Run, CanFail;
    NextDrain(c, s, e);
    RunOneMore(c, Init(c), steps, s, BeginDrain(e));
    ActivationCanFailIff(c, steps + [BeginDrain(e)], DrainStep(s, e).value, epoch);
  }
}
