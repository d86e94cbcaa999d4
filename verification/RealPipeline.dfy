/** The controller that drives stages through prefill and decode (experiments/run_real_pipeline.py, RealPipeline). */
module RealPipelines {
  import opened Types
  import opened CachedModel
  import opened HfEngine
  import opened StagedDecoding

  // ---------------------------------------------------------------- a cache left from an earlier request

  /** A model whose next token is the number of tokens it attends to. */
  function CountingModel(): Transformer<int, int> {
    Transformer(1, (t: int) => t, (l: nat, r: int, p: nat) => r, (l: nat, r: int, p: nat, w: seq<int>) => |w|, (r: int) => r)
  }

  /** An id may be reused, whatever the model, only if nothing of it is cached: with any history left, some model answers
      the prompt differently (the counting model already does). */
  lemma StaleCacheShows(history: seq<int>, prompt: seq<int>)
    requires prompt != []
    ensures (forall m: Transformer<int, int> :: NextToken(m, history + prompt) == NextToken(m, prompt)) <==> history == []
  {
    if history == [] {
      assert history + prompt == prompt;
    } else {
      CountsTokens(history + prompt);
      CountsTokens(prompt);
      assert NextToken(CountingModel(), history + prompt) != NextToken(CountingModel(), prompt);
    }
  }

  lemma CountsTokens(t: seq<int>)
    requires t != []
    ensures NextToken(CountingModel(), t) == |t|
  {
    var m := CountingModel();
    assert RowAt(m, 1, t, |t| - 1) == (m.attend)(0, RowAt(m, 0, t, |t| - 1), |t| - 1, KeysAt(m, 0, t, |t|));
  }

  // ---------------------------------------------------------------- the controller

  class RealPipeline<Row(!new), KV(!new)> {
    const m: Transformer<Row, KV>
    const stages: seq<HFLayeredEngine<Row, KV>>
    var epoch: int

    constructor (m: Transformer<Row, KV>, stages: seq<HFLayeredEngine<Row, KV>>)
      requires forall i, j :: 0 <= i < j < |stages| ==> stages[i] != stages[j]
      requires forall i :: 0 <= i < |stages| ==> stages[i].m == m && stages[i].State() == HfState(map[], None, map[])
      ensures this.m == m && this.stages == stages && epoch == 0
      ensures Valid()
    {
      this.m := m;
      this.stages := stages;
      epoch := 0;
    }

    ghost function States(): (r: seq<HfState<KV>>)
      reads stages
      ensures |r| == |stages|
    {
      seq(|stages|, i requires 0 <= i < |stages| reads stages => stages[i].State())
    }

    /** Distinct engines of the same model, on which nothing is filed under an epoch not yet issued. */
    ghost predicate Valid()
      reads this, stages
    {
      && Wired()
      && StagesOk(m, States())
      && forall i :: 0 <= i < |stages| ==> NothingAfter(States()[i], epoch)
    }

    ghost predicate Wired()
    {
      && (forall i, j :: 0 <= i < j < |stages| ==> stages[i] != stages[j])
      && (forall i :: 0 <= i < |stages| ==> stages[i].m == m)
    }

    method PrepareStage(i: nat, range: LayerRange) returns (r: Result<(), HfError>)
      requires Wired() && StagesOk(m, States()) && i < |stages|
      modifies stages
      ensures r.Success? <==> Fits(range, m.numLayers)
      ensures States() == if r.Success? then old(States())[i := WithStage(old(States())[i], epoch, range)] else old(States())
    {
      ghost var before := States();
      assert RangesOk(m.numLayers, before[i]);
      r := stages[i].PrepareEpoch(StageAssignment(epoch, stages[i].nodeId, range, None));
      assert forall j :: 0 <= j < |stages| && j != i ==> stages[j].State() == before[j];
    }

    method ActivateStage(i: nat) returns (r: Result<(), HfError>)
      requires Wired() && i < |stages| && epoch in States()[i].prepared
      modifies stages
      ensures r.Success?
      ensures States() == old(States())[i := old(States())[i].(active := Some(epoch))]
    {
      ghost var before := States();
      r := stages[i].ActivateEpoch(epoch);
      assert forall j :: 0 <= j < |stages| && j != i ==> stages[j].State() == before[j];
    }

    /** The prepare loop. */
    method PrepareStages(ranges: seq<LayerRange>) returns (r: Result<(), HfError>)
      requires Wired() && StagesOk(m, States()) && |ranges| == |stages|
      modifies stages
      ensures StagesOk(m, States())
      ensures forall i :: 0 <= i < |stages| ==>
        OnlyStageOf(old(States())[i], States()[i], epoch) && States()[i].active == old(States())[i].active
      ensures r.Success? <==> forall i :: 0 <= i < |ranges| ==> Fits(ranges[i], m.numLayers)
      ensures r.Success? ==> forall i :: 0 <= i < |stages| ==> HasStage(States()[i], epoch, ranges[i])
    {
      hide States, Fits;
      ghost var before := States();
      for i := 0 to |stages|
        invariant StagesOk(m, States())
        invariant forall j :: 0 <= j < |stages| ==>
          OnlyStageOf(before[j], States()[j], epoch) && States()[j].active == before[j].active
        invariant forall j :: 0 <= j < i ==> Fits(ranges[j], m.numLayers) && HasStage(States()[j], epoch, ranges[j])
      {
        StageAdded(m.numLayers, before[i], States()[i], epoch, ranges[i]);
        var outcome := PrepareStage(i, ranges[i]);
        if outcome.Failure? {
          return outcome;
        }
      }
      return Success(());
    }

    /** The activate loop: no activation fails, because every stage has just been prepared. */
    method ActivateStages(ghost ranges: seq<LayerRange>)
      requires Wired() && StagesOk(m, States()) && |ranges| == |stages|
      requires forall i :: 0 <= i < |stages| ==> HasStage(States()[i], epoch, ranges[i])
      modifies stages
      ensures StagesOk(m, States())
      ensures forall i :: 0 <= i < |stages| ==>
        && OnlyStageOf(old(States())[i], States()[i], epoch)
        && HasStage(States()[i], epoch, ranges[i]) && States()[i].active == Some(epoch)
    {
      hide States, Fits;
      ghost var before := States();
      for i := 0 to |stages|
        invariant StagesOk(m, States())
        invariant forall j :: 0 <= j < |stages| ==>
          OnlyStageOf(before[j], States()[j], epoch) && HasStage(States()[j], epoch, ranges[j])
        invariant forall j :: 0 <= j < i ==> States()[j].active == Some(epoch)
      {
        var outcome := ActivateStage(i);
      }
    }

    /** apply_plan: prepare on every stage, then activate on every stage. If a prepare fails no stage has switched. On
        success every request id is new again, because no cache is filed under the new epoch. */
    method ApplyPlan(ranges: seq<LayerRange>) returns (r: Result<(), HfError>)
      requires Valid() && |ranges| == |stages|
      modifies this, stages
      ensures Valid()
      ensures stages == [] ==> r == Failure(NoAliveNode) && epoch == old(epoch)
      ensures stages != [] ==> epoch == old(epoch) + 1
      ensures r.Success? <==> stages != [] && forall i :: 0 <= i < |ranges| ==> Fits(ranges[i], m.numLayers)
      ensures forall i :: 0 <= i < |stages| ==> OnlyStageOf(old(States())[i], States()[i], epoch)
      ensures r.Failure? ==> forall i :: 0 <= i < |stages| ==> States()[i].active == old(States())[i].active
      ensures r.Success? ==>
        && AllServe(m, States(), epoch, ranges)
        && forall i :: 0 <= i < |stages| ==> NoCacheUnder(States()[i], epoch)
    {
      hide States, NothingAfter, Fits, RangesOk, HasStage, OnlyStageOf, NoCacheUnder;
      if stages == [] {
        return Failure(NoAliveNode);
      }
      ghost var before := States();
      epoch := epoch + 1;
      r := PrepareStages(ranges);
      StillNothingAfter(before, States(), old(epoch));
      if r.Failure? {
        return;
      }
      ghost var middle := States();
      ActivateStages(ranges);
      OnlyStageTwice(before, middle, States(), epoch);
      StillNothingAfter(before, States(), old(epoch));
      NowServing(m, States(), epoch, ranges);
    }

    /** One pass of a chunk through all stages; the first call of a request is prefill, the later ones decode. */
    method Feed(rid: string, ids: seq<int>, isPrefill: bool, ghost ranges: seq<LayerRange>, ghost seen: seq<int>)
      returns (token: Result<Option<int>, HfError>)
      requires Valid() && (isPrefill || |ids| == 1)
      modifies stages
      ensures Valid() && OthersUnaware(old(States()), States(), rid)
      ensures old(PassOk(m, States(), epoch, ranges, rid, seen, Started(ids))) ==>
        && token == Success(Some(NextToken(m, seen + OrZero(ids))))
        && HasSeen(m, States(), epoch, ranges, rid, seen + OrZero(ids))
    {
      hide PassOk, SameForOthers, StagesOk, Seen, NothingAfter;
      var p: Pass<Row> := Started(ids);
      ghost var right := PassOk(m, States(), epoch, ranges, rid, seen, p);
      UnawareOfNothing(States(), rid);
      for i := 0 to |stages|
        invariant Wired() && StagesOk(m, States()) && HiddenOk(p)
        invariant forall j :: 0 <= j < |stages| ==> NothingAfter(States()[j], epoch)
        invariant OthersUnaware(old(States()), States(), rid)
        invariant p.at == i && p.error.None? && p.ids == ids
        invariant right ==> PassOk(m, States(), epoch, ranges, rid, seen, p)
      {
        ghost var before, q := States(), p;
        var e: Option<HfError>;
        p, e := CallStage(rid, p, isPrefill);
        if right {
          StepKeepsPassOk(m, before, epoch, ranges, rid, seen, q);
        }
        UnawareTwice(old(States()), before, States(), rid);
        if e.Some? {
          PassOkHasNoError(m, States(), epoch, ranges, rid, seen, p);
          return Failure(e.value);
        }
      }
      PassOver(m, States(), epoch, ranges, rid, seen, p);
      return Success(p.token);
    }

    /** The body of the loop over the stages. */
    method CallStage(rid: string, p: Pass<Row>, isPrefill: bool) returns (q: Pass<Row>, e: Option<HfError>)
      requires Valid() && HiddenOk(p) && p.at < |stages| && p.error.None? && (isPrefill || |p.ids| == 1)
      modifies stages
      ensures Valid()
      ensures (States(), q) == PassStep(m, old(States()), rid, p)
      ensures e == q.error
      ensures OthersUnaware(old(States()), States(), rid)
    {
      hide NothingAfter, OthersUnaware, CallResult, RangesOk;
      ghost var before := States();
      StepUnnoticed(m, before, rid, p);
      StepKeepsNothingAfter(m, before, rid, p, epoch);
      var stage := stages[p.at];
      assert before[p.at] == stage.State();
      var answer: Result<StageAnswer<Row>, HfError>;
      if isPrefill {
        answer := stage.Prefill(rid, if p.at == 0 then Some(p.ids) else None, p.hidden);
      } else {
        assert p.ids == [p.ids[0]];
        answer := stage.Decode(rid, if p.at == 0 then Some(p.ids[0]) else None, p.hidden);
      }
      match answer {
        case Failure(error) =>
          q, e := p.(error := Some(error)), Some(error);
          assert States() == before;
        case Success(a) =>
          q := p.(at := p.at + 1, hidden := a.hidden, token := if a.token.Some? then a.token else p.token);
          e := None;
          assert States() == before[p.at := stage.State()];
      }
    }

    /** run_request: a prefill pass over the prompt, then decode passes, each fed the token before. On a cluster that serves
        a cut of the model, the answer is the uncached greedy continuation of all that the stages had seen under this id,
        followed by the prompt; for a fresh id (no history) that is the model's answer to the prompt. Other requests are
        left as they were, whatever happens. */
    method RunRequest(tokens: seq<int>, maxTokens: int, rid: string, ghost ranges: seq<LayerRange>, ghost history: seq<int>)
      returns (r: Result<seq<int>, HfError>)
      requires Valid()
      modifies stages
      ensures Valid() && OthersUnaware(old(States()), States(), rid)
      ensures stages == [] ==> r == Failure(NoAliveNode)
      ensures old(HasSeen(m, States(), epoch, ranges, rid, history)) ==>
        && r == Success(Greedy(m, history + OrZero(tokens), Wanted(maxTokens)))
        && HasSeen(m, States(), epoch, ranges, rid, history + OrZero(tokens) + r.value[..Wanted(maxTokens) - 1])
    {
      hide Greedy, HasSeen, PassOk, States;
      UnawareOfNothing(States(), rid);
      if stages == [] {
        OnlyOnStages(m, States(), epoch, ranges, rid, history);
        return Failure(NoAliveNode);
      }
      ghost var right := HasSeen(m, States(), epoch, ranges, rid, history);
      ghost var start := history + OrZero(tokens);
      PassBegins(m, States(), epoch, ranges, rid, history, tokens);
      var outcome := Feed(rid, tokens, true, ranges, history);
      if outcome.Failure? {
        return Failure(outcome.error);
      }
      var previous := outcome.value;
      var generated := if previous.Some? then [previous.value] else [];
      GreedyFirst(m, start);
      assert start + generated[..0] == start;
      var steps := 1;
      while steps < maxTokens && previous.Some?
        invariant 1 <= steps <= Wanted(maxTokens)
        invariant Valid() && OthersUnaware(old(States()), States(), rid)
        invariant previous.Some? ==> generated != [] && previous.value == generated[|generated| - 1]
        invariant right ==>
          && previous.Some? && generated == Greedy(m, start, steps)
          && HasSeen(m, States(), epoch, ranges, rid, start + generated[..steps - 1])
        decreases maxTokens - steps, if previous.Some? then 1 else 0
      {
        ghost var before, seen := States(), start + generated[..|generated| - 1];
        PassBegins(m, States(), epoch, ranges, rid, seen, [previous.value]);
        assert seen + [previous.value] == start + generated;
        GreedyNext(m, start, steps);
        outcome := Feed(rid, [previous.value], false, ranges, seen);
        UnawareTwice(old(States()), before, States(), rid);
        if outcome.Failure? {
          return Failure(outcome.error);
        }
        previous := outcome.value;
        if previous.Some? {
          generated := generated + [previous.value];
          assert generated[..|generated| - 1] + [] == generated[..|generated| - 1];
          steps := steps + 1;
        }
      }
      return Success(generated);
    }
  }

  /** The stages serve this cut of the model, and have all seen exactly these tokens of the request. */
  ghost predicate HasSeen<Row, KV>(m: Transformer<Row, KV>, stages: seq<HfState<KV>>, epoch: int, ranges: seq<LayerRange>,
                                   rid: string, tokens: seq<int>)
  {
    && CutsModel(ranges, m.numLayers) && AllServe(m, stages, epoch, ranges)
    && SeenBy(m, stages, ranges, rid, tokens, 0, |stages|)
  }

  lemma OnlyOnStages<Row, KV>(m: Transformer<Row, KV>, stages: seq<HfState<KV>>, epoch: int, ranges: seq<LayerRange>,
                              rid: string, tokens: seq<int>)
    ensures HasSeen(m, stages, epoch, ranges, rid, tokens) ==> stages != []
  {
  }

  /** After a successful re-plan every request, even one half-way through, counts as not begun. */
  lemma ReplanForgets<Row, KV>(m: Transformer<Row, KV>, stages: seq<HfState<KV>>, epoch: int, ranges: seq<LayerRange>, rid: string)
    requires CutsModel(ranges, m.numLayers) && AllServe(m, stages, epoch, ranges)
    requires forall i :: 0 <= i < |stages| ==> NoCacheUnder(stages[i], epoch)
    ensures HasSeen(m, stages, epoch, ranges, rid, [])
  {
    forall i | 0 <= i < |stages|
      ensures Seen(m, stages[i], ranges[i], rid, [])
    {
      assert NoCacheUnder(stages[i], epoch) && Fits(ranges[i], m.numLayers);
      NoCacheNothingSeen(m, stages[i], ranges[i], rid);
    }
  }

  /** The comparison of experiments/verify_equivalence.py: any cut of the model into stages, freshly planned, generates token
      for token what one machine generates. */
  method VerifyEquivalence<Row(!new), KV(!new)>(
      pipeline: RealPipeline<Row, KV>, ranges: seq<LayerRange>, tokens: seq<int>, maxTokens: int, rid: string)
    returns (tokensEqual: bool)
    requires pipeline.Valid() && |ranges| == |pipeline.stages|
    requires CutsModel(ranges, pipeline.m.numLayers) && tokens != []
    modifies pipeline, pipeline.stages
    ensures tokensEqual
  {
    hide Greedy, AllServe, HasSeen, NoCacheUnder;
    var planned := pipeline.ApplyPlan(ranges);
    assert Fits(ranges[0], pipeline.m.numLayers);
    ReplanForgets(pipeline.m, pipeline.States(), pipeline.epoch, ranges, rid);
    var mono, positions := Monolithic(pipeline.m, tokens, maxTokens);
    var staged := pipeline.RunRequest(tokens, maxTokens, rid, ranges, []);
    assert [] + OrZero(tokens) == tokens;
    tokensEqual := staged == Success(mono);
  }

  /** Every stage reports as the request's position the number of tokens seen. */
  lemma PositionsAgree<Row, KV>(m: Transformer<Row, KV>, stages: seq<HfState<KV>>, epoch: int, ranges: seq<LayerRange>,
                                rid: string, tokens: seq<int>)
    requires HasSeen(m, stages, epoch, ranges, rid, tokens)
    ensures forall i :: 0 <= i < |stages| ==> SeqLength(CacheFor(stages[i], rid)) == |tokens|
  {
    forall i | 0 <= i < |stages|
      ensures SeqLength(CacheFor(stages[i], rid)) == |tokens|
    {
      assert Fits(ranges[i], m.numLayers);
      PositionIsTokensSeen(m, stages[i], ranges[i], rid, tokens);
    }
  }

  /** No epoch after this one has a stage or a cache here. */
  ghost predicate NothingAfter<KV>(s: HfState<KV>, epoch: int) {
    && (forall e :: e in s.prepared ==> e <= epoch)
    && (s.active.Some? ==> s.active.value <= epoch)
    && (forall k :: k in s.caches ==> k.0 <= epoch)
  }

  ghost predicate NoCacheUnder<KV>(s: HfState<KV>, epoch: int) {
    forall k :: k in s.caches ==> k.0 != epoch
  }

  ghost function WithStage<KV>(s: HfState<KV>, epoch: int, r: LayerRange): HfState<KV> {
    s.(prepared := s.prepared[epoch := r])
  }

  ghost predicate HasStage<KV>(s: HfState<KV>, epoch: int, r: LayerRange) {
    epoch in s.prepared && s.prepared[epoch] == r
  }

  /** Caches and the stages of other epochs are as they were. */
  ghost predicate OnlyStageOf<KV>(s: HfState<KV>, t: HfState<KV>, epoch: int) {
    t.caches == s.caches && t.prepared - {epoch} == s.prepared - {epoch}
  }

  lemma StageAdded<KV>(numLayers: nat, before: HfState<KV>, s: HfState<KV>, epoch: int, r: LayerRange)
    requires OnlyStageOf(before, s, epoch)
    ensures OnlyStageOf(before, WithStage(s, epoch, r), epoch) && HasStage(WithStage(s, epoch, r), epoch, r)
    ensures RangesOk(numLayers, s) && Fits(r, numLayers) ==> RangesOk(numLayers, WithStage(s, epoch, r))
  {
  }

  lemma OnlyStageTwice<KV>(a: seq<HfState<KV>>, b: seq<HfState<KV>>, c: seq<HfState<KV>>, epoch: int)
    requires |a| == |b| == |c|
    requires forall i :: 0 <= i < |a| ==> OnlyStageOf(a[i], b[i], epoch) && OnlyStageOf(b[i], c[i], epoch)
    ensures forall i :: 0 <= i < |a| ==> OnlyStageOf(a[i], c[i], epoch)
  {
  }

  lemma NowServing<Row, KV>(m: Transformer<Row, KV>, stages: seq<HfState<KV>>, epoch: int, ranges: seq<LayerRange>)
    requires StagesOk(m, stages) && |stages| == |ranges|
    requires forall i :: 0 <= i < |stages| ==> HasStage(stages[i], epoch, ranges[i]) && stages[i].active == Some(epoch)
    ensures AllServe(m, stages, epoch, ranges)
  {
    hide RangesOk;
  }

  /** After a switch attempt nothing is filed beyond the new epoch, and no cache under it. */
  lemma StillNothingAfter<KV>(before: seq<HfState<KV>>, after: seq<HfState<KV>>, epoch: int)
    requires |after| == |before|
    requires forall i :: 0 <= i < |before| ==> NothingAfter(before[i], epoch) && OnlyStageOf(before[i], after[i], epoch + 1)
    requires forall i :: 0 <= i < |before| ==> after[i].active == before[i].active || after[i].active == Some(epoch + 1)
    ensures forall i :: 0 <= i < |after| ==> NothingAfter(after[i], epoch + 1)
    ensures forall i :: 0 <= i < |after| ==> NoCacheUnder(after[i], epoch + 1)
  {
    forall i | 0 <= i < |after|
      ensures NothingAfter(after[i], epoch + 1) && NoCacheUnder(after[i], epoch + 1)
    {
      assert NothingAfter(before[i], epoch) && OnlyStageOf(before[i], after[i], epoch + 1);
      forall e | e in after[i].prepared
        ensures e <= epoch + 1
      {
        if e != epoch + 1 {
          assert e in after[i].prepared - {epoch + 1};
        }
      }
    }
  }

  lemma UnawareOfNothing<KV>(s: seq<HfState<KV>>, rid: string)
    ensures OthersUnaware(s, s, rid)
  {
  }

  lemma UnawareTwice<KV>(a: seq<HfState<KV>>, b: seq<HfState<KV>>, c: seq<HfState<KV>>, rid: string)
    requires OthersUnaware(a, b, rid) && OthersUnaware(b, c, rid)
    ensures OthersUnaware(a, c, rid)
  {
    hide CacheFor;
    forall i | 0 <= i < |a|
      ensures SameForOthers(a[i], c[i], rid)
    {
      assert SameForOthers(a[i], b[i], rid) && SameForOthers(b[i], c[i], rid);
    }
  }

  /** A stage call files nothing beyond the current epoch. */
  lemma StepKeepsNothingAfter<Row, KV>(m: Transformer<Row, KV>, stages: seq<HfState<KV>>, rid: string, p: Pass<Row>, epoch: int)
    requires StagesOk(m, stages) && HiddenOk(p) && p.at < |stages|
    requires forall i :: 0 <= i < |stages| ==> NothingAfter(stages[i], epoch)
    ensures |PassStep(m, stages, rid, p).0| == |stages|
    ensures forall i :: 0 <= i < |stages| ==> NothingAfter(PassStep(m, stages, rid, p).0[i], epoch)
  {
    hide CallResult, RangesOk;
    var ids := if p.at == 0 then Some(p.ids) else None;
    CallTouchesOneCache(m, stages[p.at], rid, ids, p.hidden);
    CallKeepsNothingAfter(m, stages[p.at], rid, ids, p.hidden, epoch);
  }

  lemma CallKeepsNothingAfter<Row, KV>(m: Transformer<Row, KV>, s: HfState<KV>, rid: string, ids: Option<seq<int>>,
                                       hidden: Option<seq<Row>>, epoch: int)
    requires RangesOk(m.numLayers, s) && (hidden.Some? ==> hidden.value != []) && NothingAfter(s, epoch)
    ensures var r := CallResult(m, s, rid, ids, hidden);
      r.Success? ==> NothingAfter(r.value.1, epoch)
  {
    hide StageForward;
  }

  lemma PassOkHasNoError<Row, KV>(m: Transformer<Row, KV>, stages: seq<HfState<KV>>, epoch: int, ranges: seq<LayerRange>,
                                  rid: string, seen: seq<int>, p: Pass<Row>)
    ensures PassOk(m, stages, epoch, ranges, rid, seen, p) ==> p.error.None?
  {
  }

  lemma PassBegins<Row, KV>(m: Transformer<Row, KV>, stages: seq<HfState<KV>>, epoch: int, ranges: seq<LayerRange>,
                            rid: string, seen: seq<int>, ids: seq<int>)
    ensures HasSeen(m, stages, epoch, ranges, rid, seen) <==> PassOk(m, stages, epoch, ranges, rid, seen, Started(ids))
  {
  }

  lemma GreedyFirst<Row, KV>(m: Transformer<Row, KV>, start: seq<int>)
    requires start != []
    ensures Greedy(m, start, 1) == [NextToken(m, start)]
  {
    assert Greedy(m, start, 0) == [] && start + [] == start;
  }

  lemma GreedyNext<Row, KV>(m: Transformer<Row, KV>, start: seq<int>, n: nat)
    requires start != []
    ensures Greedy(m, start, n + 1) == Greedy(m, start, n) + [NextToken(m, start + Greedy(m, start, n))]
  {
  }

  lemma PassOver<Row, KV>(m: Transformer<Row, KV>, stages: seq<HfState<KV>>, epoch: int, ranges: seq<LayerRange>,
                          rid: string, seen: seq<int>, p: Pass<Row>)
    requires p.at == |stages|
    ensures PassOk(m, stages, epoch, ranges, rid, seen, p) ==>
      && p.token == Some(NextToken(m, seen + OrZero(p.ids)))
      && HasSeen(m, stages, epoch, ranges, rid, seen + OrZero(p.ids))
  {
  }
}
