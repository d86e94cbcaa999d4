/** Exactly which drains are harmless: those of epochs that have already been issued. */
module ProtocolDrains {
  import opened Types
  import opened Coverage
  import opened ModelManagement
  import opened Coordinator
  import opened Protocol
  import opened ProtocolSafety
  import opened ProtocolCutOver

  // ---------------------------------------------------------------- a drain before an activation

  /** The activation has failed after the ledger was rewritten: the books are on the new plan, service on the old one. */
  ghost predicate BooksAhead<H>(c: Config<H>, s: State<H>, end: Option<State<H>>)
    requires s.phase.Preparing?
  {
    && end.Some? && end.value.phase.Idle?
    && end.value.current == s.current && end.value.published == s.published
    && end.value.ledger == Committed(c.model, s.ledger, s.phase.plan)
  }

  function DrainThenActivate(e: int, n: NodeId): seq<Step> {
    [BeginDrain(e), RetireOn(e, n), CommitPlan, ActivateNext]
  }

  lemma RetireKeepsReady<H>(s: State<H>, e: int, n: NodeId, x: int, p: Placement)
    requires RetireStep(s, e, n).Some? && x != e && ReadyOn(s, x, p)
    ensures ReadyOn(RetireStep(s, e, n).value, x, p)
  {
  }

  lemma ReadyFrame<H>(s: State<H>, u: State<H>)
    requires u.engines == s.engines
    ensures forall x, p :: ReadyOn(s, x, p) ==> ReadyOn(u, x, p)
  {
  }

  lemma ReadyIsPrepared<H>(s: State<H>, x: int, p: Placement)
    requires ReadyOn(s, x, p)
    ensures p.nodeId in s.engines && x in s.engines[p.nodeId].prepared
  {
  }

  /** At a fully prepared moment the drain of another epoch leaves the activation alone. */
  lemma OtherDrainLeavesActivation<H>(c: Config<H>, s: State<H>, e: int, n: NodeId)
    requires Safe(c, s) && Orderly(s) && s.phase.Preparing? && s.phase.done == |s.phase.plan|
    requires CanHost(c.model, s.ledger, s.phase.plan) && s.phase.plan != []
    requires DrainStep(s, e).Some? && e != s.phase.epoch && n in s.engines
    ensures var end := Run(c, s, DrainThenActivate(e, n));
      end.Some? && end.value.phase.Activating?
  {
    hide Safe, Tiles, CanHost, Committed, CurrentServed, DrainsOk, ReadyOn, Run, Next;
    var drained := DrainStep(s, e).value;
    var retired := RetireStep(drained, e, n).value;
    var committed := CommitStep(c, retired).value;
    var p := s.phase.plan[0];
    assert ReadyOn(drained, s.phase.epoch, p) by {
      ReadyFrame(s, drained);
    }
    RetireKeepsReady(drained, e, n, s.phase.epoch, p);
    ReadyIsPrepared(retired, s.phase.epoch, p);
    NextDrain(c, s, e);
    NextRetire(c, drained, e, n);
    NextCommit(c, retired);
    NextActivate(c, committed);
    FourSteps(c, s, drained, retired, committed, DrainThenActivate(e, n));
  }

  /** Of the epochs that may be drained at a fully prepared moment, exactly the one being installed makes the activation
      fail after the ledger has been rewritten. */
  lemma DrainBreaksActivationIff<H>(c: Config<H>, steps: seq<Step>, s: State<H>, e: int)
    requires Run(c, Init(c), steps) == Some(s) && DisciplinedRun(c, Init(c), steps)
    requires s.phase.Preparing? && s.phase.done == |s.phase.plan| && CanHost(c.model, s.ledger, s.phase.plan)
    requires DrainStep(s, e).Some?
    ensures (exists n :: n in s.engines && BooksAhead(c, s, Run(c, s, DrainThenActivate(e, n)))) <==> e == s.nextEpoch + 1
  {
    hide Run, Safe, Orderly, CanHost, Committed, DrainStep;
    DisciplinedRunsAreOrderly(c, steps, s);
    FullyPreparedFacts(c, s);
    if e == s.nextEpoch + 1 {
      DrainingTheNextEpochBreaksIt(c, s);
      assert BooksAhead(c, s, Run(c, s, DrainThenActivate(e, s.phase.plan[0].nodeId)));
    } else {
      forall n | n in s.engines
        ensures !BooksAhead(c, s, Run(c, s, DrainThenActivate(e, n)))
      {
        OtherDrainLeavesActivation(c, s, e, n);
      }
    }
  }

  lemma FullyPreparedFacts<H>(c: Config<H>, s: State<H>)
    requires Safe(c, s) && Orderly(s) && s.phase.Preparing? && s.phase.done == |s.phase.plan|
    ensures s.phase.epoch == s.nextEpoch + 1 && s.phase.plan != [] && s.phase.plan[0].nodeId in s.engines
  {
    hide TicketsOk, EnginesOk, CurrentServed, DrainsOk;
    assert Tiles(s.phase.plan, c.model.numLayers);
    assert ReadyOn(s, s.phase.epoch, s.phase.plan[0]);
  }

  // ---------------------------------------------------------------- a drain whose retirement comes late

  /** A plan has been published and no activation is under way, yet some node of it is not serving it. */
  ghost predicate OutOfService<H>(s: State<H>) {
    s.current.Some? && !s.phase.Activating? && !InService(s)
  }

  ghost predicate NoDrains(steps: seq<Step>) {
    forall i :: 0 <= i < |steps| ==> !steps[i].BeginDrain?
  }

  /** A drain may be begun before its epoch is published and retire a node afterwards: that takes the plan down. */
  lemma LateRetirementTakesPlanDown<H>(c: Config<H>, s: State<H>, p: Placement)
    requires s.current.Some? && s.published == s.current.value && s.published.epoch == s.nextEpoch && !s.phase.Activating?
    requires s.nextEpoch in s.draining && p in s.published.placements && p.nodeId in s.engines
    ensures var end := Run(c, s, [RetireOn(s.nextEpoch, p.nodeId)]);
      end.Some? && OutOfService(end.value)
  {
    OneStep(c, s, RetireOn(s.nextEpoch, p.nodeId));
    var u := RetireStep(s, s.nextEpoch, p.nodeId).value;
    assert !Serving(u.engines, u.nextEpoch, p);
  }

  // ---------------------------------------------------------------- getting to the drained epoch

  /** The cluster is quiet and this node could serve the whole model. */
  ghost predicate CanInstall<H>(c: Config<H>, s: State<H>, n: NodeId) {
    && s.phase.Idle? && c.model.numLayers > 0
    && n in s.engines && s.engines[n].totalLayers >= c.model.numLayers
    && Room(s.ledger, n, PlacementMemory(c.model, WholeOn(c.model, n)))
  }

  lemma WholeModelFits(m: Model, l: Ledger, n: NodeId)
    requires m.numLayers > 0 && Room(l, n, PlacementMemory(m, WholeOn(m, n)))
    ensures PlanValid(m, l, [WholeOn(m, n)]) && CanHost(m, l, [WholeOn(m, n)])
    ensures Room(Committed(m, l, [WholeOn(m, n)]), n, PlacementMemory(m, WholeOn(m, n)))
  {
    hide PlacementMemory;
    OneNodeTiles(m, n);
  }

  lemma PrepareWhole<H>(c: Config<H>, s: State<H>, n: NodeId) returns (u: State<H>)
    requires CanInstall(c, s, n)
    ensures Run(c, s, [BeginPlan([WholeOn(c.model, n)]), PrepareNext(true)]) == Some(u)
    ensures u.phase == Preparing(s.nextEpoch + 1, [WholeOn(c.model, n)], 1)
    ensures u.nextEpoch == s.nextEpoch && u.draining == s.draining && u.ledger == s.ledger
    ensures n in u.engines && u.engines[n].totalLayers == s.engines[n].totalLayers && s.nextEpoch + 1 in u.engines[n].prepared
  {
    hide PlacementMemory, CanHost, Committed, Room, PlanValid, Run;
    var p := WholeOn(c.model, n);
    WholeModelFits(c.model, s.ledger, n);
    var s1 := BeginStep(c, s, [p]).value;
    u := PrepareStep(c, s1, true).value;
    OneStep(c, s, BeginPlan([p]));
    RunOneMore(c, s, [BeginPlan([p])], s1, PrepareNext(true));
    assert [BeginPlan([p])] + [PrepareNext(true)] == [BeginPlan([p]), PrepareNext(true)];
  }

  lemma SwitchToWhole<H>(c: Config<H>, s: State<H>, n: NodeId) returns (u: State<H>)
    requires c.model.numLayers > 0 && Room(s.ledger, n, PlacementMemory(c.model, WholeOn(c.model, n)))
    requires s.phase == Preparing(s.nextEpoch + 1, [WholeOn(c.model, n)], 1)
    requires n in s.engines && s.engines[n].totalLayers >= c.model.numLayers && s.nextEpoch + 1 in s.engines[n].prepared
    ensures Run(c, s, [CommitPlan, ActivateNext, PublishPlan]) == Some(u)
    ensures CanInstall(c, u, n) && u.draining == s.draining && u.nextEpoch == s.nextEpoch + 1
    ensures u.current == Some(u.published) && u.published == PipelinePlan(u.nextEpoch, [WholeOn(c.model, n)])
  {
    hide PlacementMemory, CanHost, Committed, Room, PlanValid, Run;
    WholeModelFits(c.model, s.ledger, n);
    var s3 := CommitStep(c, s).value;
    var s4 := ActivateStep(s3).value;
    u := PublishStep(s4).value;
    ThreeSteps(c, s, s3, s4, CommitPlan, ActivateNext, PublishPlan);
  }

  /** One reconfiguration onto the node: five steps, and it could be done again. */
  lemma Install<H>(c: Config<H>, s: State<H>, n: NodeId) returns (steps: seq<Step>, u: State<H>)
    requires CanInstall(c, s, n)
    ensures NoDrains(steps) && Run(c, s, steps) == Some(u)
    ensures CanInstall(c, u, n) && u.draining == s.draining && u.nextEpoch == s.nextEpoch + 1
    ensures u.current == Some(u.published) && u.published == PipelinePlan(u.nextEpoch, [WholeOn(c.model, n)])
  {
    hide PlacementMemory, Room, Run;
    var prepared := PrepareWhole(c, s, n);
    u := SwitchToWhole(c, prepared, n);
    var first := [BeginPlan([WholeOn(c.model, n)]), PrepareNext(true)];
    RunConcat(c, s, first, prepared, [CommitPlan, ActivateNext, PublishPlan]);
    steps := first + [CommitPlan, ActivateNext, PublishPlan];
  }

  lemma {:induction false} InstallUpTo<H>(c: Config<H>, s: State<H>, n: NodeId, epoch: int) returns (steps: seq<Step>, u: State<H>)
    requires CanInstall(c, s, n) && epoch > s.nextEpoch
    ensures NoDrains(steps) && Run(c, s, steps) == Some(u)
    ensures CanInstall(c, u, n) && u.draining == s.draining && u.nextEpoch == epoch
    ensures u.current == Some(u.published) && u.published == PipelinePlan(u.nextEpoch, [WholeOn(c.model, n)])
    decreases epoch - s.nextEpoch
  {
    hide Run, CanInstall;
    steps, u := Install(c, s, n);
    if u.nextEpoch < epoch {
      var more, end := InstallUpTo(c, u, n, epoch);
      RunConcat(c, s, steps, u, more);
      steps, u := steps + more, end;
    }
  }

  /** There is always another name. */
  lemma {:induction false} NewName(names: set<NodeId>) returns (n: NodeId)
    ensures forall m :: m in names ==> |m| < |n|
    decreases names
  {
    if names == {} {
      n := "n";
    } else {
      var x :| x in names;
      var longer := NewName(names - {x});
      n := longer + x + "n";
      forall m | m in names
        ensures |m| < |n|
      {
        assert m == x || m in names - {x};
      }
    }
  }

  /** A node unknown so far joins, large enough for the whole model. */
  lemma JoinNode<H>(c: Config<H>, s: State<H>, n: NodeId) returns (steps: seq<Step>, u: State<H>)
    requires s.phase.Idle? && c.model.numLayers > 0
    requires n !in s.engines && n !in s.ledger.nodes && n !in s.ledger.reserved
    ensures NoDrains(steps) && Run(c, s, steps) == Some(u)
    ensures CanInstall(c, u, n) && u.draining == s.draining && u.nextEpoch == s.nextEpoch
  {
    hide PlacementMemory, Run;
    OneNodeTiles(c.model, n);
    var join := NodeEvent(Join(n, PlacementMemory(c.model, WholeOn(c.model, n))));
    var s1 := AttachStep(s, n, c.model.numLayers).value;
    u := Next(c, s1, join).value;
    steps := [AttachNode(n, c.model.numLayers)] + [join];
    OneStep(c, s, AttachNode(n, c.model.numLayers));
    RunOneMore(c, s, [AttachNode(n, c.model.numLayers)], s1, join);
  }

  lemma JoinNewNode<H>(c: Config<H>, s: State<H>) returns (n: NodeId, steps: seq<Step>, u: State<H>)
    requires s.phase.Idle? && c.model.numLayers > 0
    ensures NoDrains(steps) && Run(c, s, steps) == Some(u)
    ensures CanInstall(c, u, n) && u.draining == s.draining && u.nextEpoch == s.nextEpoch
  {
    hide Run, CanInstall;
    var names := s.engines.Keys + s.ledger.nodes.Keys + s.ledger.reserved.Keys;
    n := NewName(names);
    assert n !in names;
    steps, u := JoinNode(c, s, n);
  }

  /** The situation of DrainBreaksActivationIff can be reached: on any configuration with a layer to serve, a first
      reconfiguration onto any one node gets there. */
  lemma FullyPreparedIsReachable<H>(c: Config<H>, n: NodeId) returns (steps: seq<Step>, s: State<H>)
    requires c.model.numLayers > 0
    ensures Run(c, Init(c), steps) == Some(s) && DisciplinedRun(c, Init(c), steps)
    ensures s.phase.Preparing? && s.phase.done == |s.phase.plan| && s.phase.plan == [WholeOn(c.model, n)]
    ensures CanHost(c.model, s.ledger, s.phase.plan)
  {
    hide Run, CanHost, PlacementMemory;
    var joining, joined := JoinNode(c, Init(c), n);
    WholeModelFits(c.model, joined.ledger, n);
    s := PrepareWhole(c, joined, n);
    var preparing := [BeginPlan([WholeOn(c.model, n)]), PrepareNext(true)];
    RunConcat(c, Init(c), joining, joined, preparing);
    steps := joining + preparing;
    Standing(c, Init(c));
    DisciplinedContinuation(c, Init(c), [], Init(c), steps);
    assert [] + steps == steps;
  }

  /** An activation under way runs to its end and is published. */
  lemma {:induction false} FinishActivation<H>(c: Config<H>, s: State<H>) returns (steps: seq<Step>, u: State<H>)
    requires s.phase.Activating? && NextOnTrack(s)
    ensures NoDrains(steps) && Run(c, s, steps) == Some(u)
    ensures u.phase.Idle? && u.draining == s.draining && u.nextEpoch == s.phase.epoch
    ensures u.current == Some(u.published) && u.published == PipelinePlan(s.phase.epoch, s.phase.plan)
    ensures forall p :: p in s.phase.plan ==> p.nodeId in u.engines
    decreases |s.phase.plan| - s.phase.done
  {
    hide Run, StageReady;
    if s.phase.done < |s.phase.plan| {
      assert ReadyOn(s, s.phase.epoch, s.phase.plan[s.phase.done]);
      var next := OneActivation(c, s);
      var more;
      more, u := FinishActivation(c, next);
      OneStep(c, s, ActivateNext);
      RunConcat(c, s, [ActivateNext], next, more);
      steps := [ActivateNext] + more;
    } else {
      steps, u := [PublishPlan], PublishStep(s).value;
      OneStep(c, s, PublishPlan);
      forall p | p in s.phase.plan
        ensures p.nodeId in u.engines
      {
        var i :| 0 <= i < |s.phase.plan| && s.phase.plan[i] == p;
        assert ReadyOn(s, s.phase.epoch, s.phase.plan[i]);
      }
    }
  }

  lemma OneActivation<H>(c: Config<H>, s: State<H>) returns (u: State<H>)
    requires s.phase.Activating? && NextOnTrack(s) && s.phase.done < |s.phase.plan|
    ensures Next(c, s, ActivateNext) == Some(u) && NextOnTrack(u)
    ensures u.phase == Activating(s.phase.epoch, s.phase.plan, s.phase.done + 1) && u.draining == s.draining
  {
    hide ReadyOn;
    ReadyIsPrepared(s, s.phase.epoch, s.phase.plan[s.phase.done]);
    u := ActivateStep(s).value;
    ActivateKeepsReady(s);
  }

  lemma ActivateKeepsReady<H>(s: State<H>)
    requires ActivateStep(s).Some?
    ensures forall x, p :: ReadyOn(s, x, p) ==> ReadyOn(ActivateStep(s).value, x, p)
    ensures forall x, n :: ActiveOn(s, x, n) && x == s.phase.epoch ==> ActiveOn(ActivateStep(s).value, x, n)
  {
  }

  /** Whatever is under way is brought to an end, by giving up while that is still possible. */
  lemma ComeToRest<H>(c: Config<H>, s: State<H>) returns (steps: seq<Step>, u: State<H>)
    requires Safe(c, s) && NextOnTrack(s)
    ensures NoDrains(steps) && Run(c, s, steps) == Some(u)
    ensures u.phase.Idle? && u.draining == s.draining
    ensures u.nextEpoch == s.nextEpoch
      || (u.nextEpoch == s.nextEpoch + 1 && u.current == Some(u.published) && u.published.epoch == u.nextEpoch
          && u.published.placements != [] && u.published.placements[0].nodeId in u.engines)
  {
    hide Run, TicketsOk, EnginesOk, Tiles, CanHost, Committed, StageReady;
    PhaseFacts(c, s);
    match s.phase {
      case Idle =>
        steps, u := [], s;
        Standing(c, s);
      case Activating(e, plan, k) =>
        steps, u := FinishActivation(c, s);
        assert plan[0] in plan;
      case Preparing(e, plan, k) =>
        if k < |plan| {
          steps, u := [PrepareNext(false)], PrepareStep(c, s, false).value;
          OneStep(c, s, PrepareNext(false));
        } else {
          var committed := CommitStep(c, s).value;
          OneStep(c, s, CommitPlan);
          steps, u := [CommitPlan], committed;
          if committed.phase.Activating? {
            assert forall i :: 0 <= i < |plan| ==> ReadyOn(s, e, plan[i]);
            var more;
            more, u := FinishActivation(c, committed);
            RunConcat(c, s, [CommitPlan], committed, more);
            steps := [CommitPlan] + more;
            assert plan[0] in plan;
          }
        }
    }
  }

  lemma Standing<H>(c: Config<H>, s: State<H>)
    ensures Run(c, s, []) == Some(s)
  {
  }

  /** Once a drain of an epoch still to come has been begun, reconfigurations can bring the cluster to that epoch, and the
      retirement that is still due takes it down. */
  lemma FutureDrainTakesPlanDown<H>(c: Config<H>, s: State<H>, e: int) returns (steps: seq<Step>, u: State<H>)
    requires Safe(c, s) && NextOnTrack(s) && c.model.numLayers > 0 && e in s.draining && e > s.nextEpoch
    ensures NoDrains(steps) && Run(c, s, steps) == Some(u) && OutOfService(u)
  {
    hide Run, Safe, NextOnTrack, OutOfService;
    var rest, quiet := ComeToRest(c, s);
    steps, u := rest, quiet;
    var p;
    if quiet.nextEpoch == e {
      p := quiet.published.placements[0];
    } else {
      var n, joining, joined := JoinNewNode(c, quiet);
      var installing, installed := InstallUpTo(c, joined, n, e);
      RunConcat(c, s, rest, quiet, joining);
      RunConcat(c, s, rest + joining, joined, installing);
      steps, u := rest + joining + installing, installed;
      p := WholeOn(c.model, n);
    }
    LateRetirementTakesPlanDown(c, u, p);
    RunConcat(c, s, steps, u, [RetireOn(e, p.nodeId)]);
    steps, u := steps + [RetireOn(e, p.nodeId)], Run(c, u, [RetireOn(e, p.nodeId)]).value;
  }

  // ---------------------------------------------------------------- the exact condition

  lemma {:induction false} DisciplinedContinuation<H>(c: Config<H>, s0: State<H>, steps: seq<Step>, s: State<H>, more: seq<Step>)
    requires Run(c, s0, steps) == Some(s) && DisciplinedRun(c, s0, steps)
    requires NoDrains(more) && Run(c, s, more).Some?
    ensures DisciplinedRun(c, s0, steps + more) && Run(c, s0, steps + more) == Run(c, s, more)
  {
    hide Next;
    RunConcat(c, s0, steps, s, more);
    if more == [] {
      assert steps + more == steps;
    } else {
      var n := |more| - 1;
      DisciplinedContinuation(c, s0, steps, s, more[..n]);
      assert (steps + more)[..|steps + more| - 1] == steps + more[..n];
    }
  }

  /** What can happen after a drain has been begun, with no further drain. */
  ghost predicate CanTakePlanDown<H>(c: Config<H>, s: State<H>, e: int, more: seq<Step>) {
    var end := Run(c, s, [BeginDrain(e)] + more);
    NoDrains(more) && end.Some? && OutOfService(end.value)
  }

  /** The discipline is exact. From any state in which only issued epochs have been drained so far, beginning the drain of
      epoch e can lead to a published plan that is out of service, without any further drain, exactly when e has not been
      issued yet. */
  lemma DrainIsHarmlessIff<H>(c: Config<H>, steps: seq<Step>, s: State<H>, e: int)
    requires Run(c, Init(c), steps) == Some(s) && DisciplinedRun(c, Init(c), steps)
    requires c.model.numLayers > 0 && DrainStep(s, e).Some?
    ensures (exists more :: CanTakePlanDown(c, s, e, more)) <==> e > s.nextEpoch
  {
    hide Run, Safe, InService;
    var drained := DrainStep(s, e).value;
    OneStep(c, s, BeginDrain(e));
    if e > s.nextEpoch {
      DisciplinedRunsAreOrderly(c, steps, s);
      StepSafe(c, s, BeginDrain(e));
      var more, u := FutureDrainTakesPlanDown(c, drained, e);
      RunConcat(c, s, [BeginDrain(e)], drained, more);
      assert CanTakePlanDown(c, s, e, more);
    } else {
      forall more | NoDrains(more) && Run(c, s, [BeginDrain(e)] + more).Some?
        ensures !OutOfService(Run(c, s, [BeginDrain(e)] + more).value)
      {
        IssuedDrainIsHarmless(c, steps, s, e, more);
      }
    }
  }

  lemma IssuedDrainIsHarmless<H>(c: Config<H>, steps: seq<Step>, s: State<H>, e: int, more: seq<Step>)
    requires Run(c, Init(c), steps) == Some(s) && DisciplinedRun(c, Init(c), steps)
    requires e <= s.nextEpoch && NoDrains(more) && Run(c, s, [BeginDrain(e)] + more).Some?
    ensures !OutOfService(Run(c, s, [BeginDrain(e)] + more).value)
  {
    hide Next, Serving;
    var first := steps + [BeginDrain(e)];
    RunOneMore(c, Init(c), steps, s, BeginDrain(e));
    OneStep(c, s, BeginDrain(e));
    var u := Run(c, s, [BeginDrain(e)] + more).value;
    DrainCameFirst(c, s, e, more);
    var drained := Next(c, s, BeginDrain(e)).value;
    assert first[..|first| - 1] == steps;
    RunConcat(c, s, [BeginDrain(e)], drained, more);
    DisciplinedContinuation(c, Init(c), first, drained, more);
    if u.current.Some? && !u.phase.Activating? {
      CutOverHolds(c, first + more, u);
    }
  }

  lemma {:induction false} DrainCameFirst<H>(c: Config<H>, s: State<H>, e: int, more: seq<Step>)
    requires Run(c, s, [BeginDrain(e)] + more).Some?
    ensures Next(c, s, BeginDrain(e)).Some?
  {
    hide Next;
    var all := [BeginDrain(e)] + more;
    if more == [] {
      OneStep(c, s, BeginDrain(e));
      assert all == [BeginDrain(e)];
    } else {
      assert all[..|all| - 1] == [BeginDrain(e)] + more[..|more| - 1];
      DrainCameFirst(c, s, e, more[..|more| - 1]);
    }
  }
}
