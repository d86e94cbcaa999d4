/** Pushing a chunk of tokens through a row of stages, and any interleaving of such passes for different requests
    (experiments/run_real_pipeline.py; agents/stage_agent.py serialises the calls on each stage with a lock). */
module StagedDecoding {
  import opened Types
  import opened CachedModel
  import opened HfEngine

  // ---------------------------------------------------------------- a row of stages

  /** The ranges are non-empty and join up over the whole model, in the order of the stages. */
  predicate CutsModel(ranges: seq<LayerRange>, numLayers: nat) {
    && ranges != []
    && ranges[0].start == 0 && ranges[|ranges| - 1].end == numLayers
    && (forall i :: 0 <= i < |ranges| ==> Fits(ranges[i], numLayers))
    && (forall i :: 0 <= i < |ranges| - 1 ==> ranges[i].end == ranges[i + 1].start)
  }

  ghost predicate AllServe<Row, KV>(m: Transformer<Row, KV>, stages: seq<HfState<KV>>, epoch: int, ranges: seq<LayerRange>) {
    && |stages| == |ranges|
    && forall i :: 0 <= i < |stages| ==> RangesOk(m.numLayers, stages[i]) && Serves(stages[i], epoch, ranges[i])
  }

  /** Stages `from` to `to - 1` have seen exactly these tokens of the request. */
  ghost predicate SeenBy<Row, KV>(m: Transformer<Row, KV>, stages: seq<HfState<KV>>, ranges: seq<LayerRange>, rid: string,
                                  tokens: seq<int>, from: nat, to: nat)
    requires |stages| == |ranges| && CutsModel(ranges, m.numLayers) && from <= to <= |stages|
  {
    forall i :: from <= i < to ==> Seen(m, stages[i], ranges[i], rid, tokens)
  }

  lemma CutEndsMiddle(ranges: seq<LayerRange>, numLayers: nat, i: nat)
    requires CutsModel(ranges, numLayers) && i < |ranges|
    ensures ranges[i].start == 0 <==> i == 0
    ensures ranges[i].end == numLayers <==> i == |ranges| - 1
  {
    if i > 0 {
      assert Fits(ranges[i - 1], numLayers);
      assert ranges[i - 1].end == ranges[i].start;
    }
    if i < |ranges| - 1 {
      assert Fits(ranges[i + 1], numLayers);
      assert ranges[i].end == ranges[i + 1].start;
    }
  }

  // ---------------------------------------------------------------- a pass in progress

  /** A request's pass: the tokens fed, the next stage to call, and what the stage before it returned. */
  datatype Pass<Row> = Pass(ids: seq<int>, at: nat, hidden: Option<seq<Row>>, token: Option<int>, error: Option<HfError>)

  function Started<Row>(ids: seq<int>): Pass<Row> {
    Pass(ids, 0, None, None, None)
  }

  predicate HiddenOk<Row>(p: Pass<Row>) {
    p.hidden.Some? ==> p.hidden.value != []
  }

  predicate StagesOk<Row, KV>(m: Transformer<Row, KV>, stages: seq<HfState<KV>>) {
    forall i :: 0 <= i < |stages| ==> RangesOk(m.numLayers, stages[i])
  }

  /** One stage call of the pass. */
  function PassCall<Row, KV>(m: Transformer<Row, KV>, stages: seq<HfState<KV>>, rid: string, p: Pass<Row>)
    : Result<(StageAnswer<Row>, HfState<KV>), HfError>
    requires StagesOk(m, stages) && HiddenOk(p) && p.at < |stages|
  {
    CallResult(m, stages[p.at], rid, if p.at == 0 then Some(p.ids) else None, p.hidden)
  }

  /** The loop body: remember the hidden rows for the next stage, and the token if there is one. */
  function PassStep<Row, KV>(m: Transformer<Row, KV>, stages: seq<HfState<KV>>, rid: string, p: Pass<Row>)
    : (r: (seq<HfState<KV>>, Pass<Row>))
    requires StagesOk(m, stages) && HiddenOk(p) && p.at < |stages|
    ensures |r.0| == |stages| && StagesOk(m, r.0) && HiddenOk(r.1)
    ensures r.1.ids == p.ids && (r.1.error.None? ==> r.1.at == p.at + 1)
  {
    match PassCall(m, stages, rid, p)
    case Failure(e) => (stages, p.(error := Some(e)))
    case Success((a, s)) =>
      CallTouchesOneCache(m, stages[p.at], rid, if p.at == 0 then Some(p.ids) else None, p.hidden);
      (stages[p.at := s], p.(at := p.at + 1, hidden := a.hidden, token := if a.token.Some? then a.token else p.token))
  }

  /** Half-way through a pass: the stages behind it have seen the chunk, those ahead have not, and the rows in hand are
      the ones the uncached model has at this layer. */
  ghost predicate PassOk<Row, KV>(m: Transformer<Row, KV>, stages: seq<HfState<KV>>, epoch: int, ranges: seq<LayerRange>,
                                  rid: string, seen: seq<int>, p: Pass<Row>)
  {
    && AllServe(m, stages, epoch, ranges) && CutsModel(ranges, m.numLayers)
    && p.error.None? && p.at <= |stages|
    && SeenBy(m, stages, ranges, rid, seen + OrZero(p.ids), 0, p.at)
    && SeenBy(m, stages, ranges, rid, seen, p.at, |stages|)
    && p.hidden == (if 0 < p.at < |stages| then Some(ChunkRows(m, ranges[p.at].start, seen, OrZero(p.ids))) else None)
    && p.token == (if p.at == |stages| then Some(NextToken(m, seen + OrZero(p.ids))) else None)
  }

  /** The other requests cannot tell that the step happened. */
  ghost predicate OthersUnaware<KV>(stages: seq<HfState<KV>>, after: seq<HfState<KV>>, rid: string) {
    && |after| == |stages|
    && forall i :: 0 <= i < |stages| ==> SameForOthers(stages[i], after[i], rid)
  }

  ghost predicate SameForOthers<KV>(s: HfState<KV>, t: HfState<KV>, rid: string) {
    && t.prepared == s.prepared && t.active == s.active
    && (forall other :: other != rid ==> CacheFor(t, other) == CacheFor(s, other))
  }

  lemma StepUnnoticed<Row, KV>(m: Transformer<Row, KV>, stages: seq<HfState<KV>>, rid: string, p: Pass<Row>)
    requires StagesOk(m, stages) && HiddenOk(p) && p.at < |stages|
    ensures OthersUnaware(stages, PassStep(m, stages, rid, p).0, rid)
  {
    hide CacheFor, CallResult;
    CallTouchesOneCache(m, stages[p.at], rid, if p.at == 0 then Some(p.ids) else None, p.hidden);
  }

  lemma StepKeepsPassOk<Row, KV>(m: Transformer<Row, KV>, stages: seq<HfState<KV>>, epoch: int, ranges: seq<LayerRange>,
                                 rid: string, seen: seq<int>, p: Pass<Row>)
    requires StagesOk(m, stages) && HiddenOk(p)
    requires PassOk(m, stages, epoch, ranges, rid, seen, p) && p.at < |stages|
    ensures var (after, q) := PassStep(m, stages, rid, p);
      PassOk(m, after, epoch, ranges, rid, seen, q)
  {
    hide CallResult, ChunkRows, NextToken, Seen;
    var i, chunk := p.at, OrZero(p.ids);
    CutEndsMiddle(ranges, m.numLayers, i);
    assert Fits(ranges[i], m.numLayers);
    CallIsRight(m, stages[i], epoch, ranges[i], rid, seen, chunk, if i == 0 then Some(p.ids) else None, p.hidden);
    CallTouchesOneCache(m, stages[i], rid, if i == 0 then Some(p.ids) else None, p.hidden);
    var (after, q) := PassStep(m, stages, rid, p);
    assert AllServe(m, after, epoch, ranges);
    assert i < |stages| - 1 ==> ranges[i].end == ranges[i + 1].start;
  }

  /** A step of one request leaves a pass of another in order. */
  lemma OthersStayOk<Row, KV>(m: Transformer<Row, KV>, stages: seq<HfState<KV>>, after: seq<HfState<KV>>, epoch: int,
                              ranges: seq<LayerRange>, rid: string, other: string, seen: seq<int>, p: Pass<Row>)
    requires PassOk(m, stages, epoch, ranges, other, seen, p) && other != rid
    requires OthersUnaware(stages, after, rid)
    ensures PassOk(m, after, epoch, ranges, other, seen, p)
  {
    hide CacheFor, CacheOf, ChunkRows, NextToken, OrZero;
    forall i | 0 <= i < |stages|
      ensures SameForOthers(stages[i], after[i], rid)
    {
    }
  }

  /** When a pass is over every stage has seen the chunk; that is where the next pass of the request begins. */
  lemma NextPassStarts<Row, KV>(m: Transformer<Row, KV>, stages: seq<HfState<KV>>, epoch: int, ranges: seq<LayerRange>,
                                rid: string, seen: seq<int>, p: Pass<Row>, ids: seq<int>)
    requires PassOk(m, stages, epoch, ranges, rid, seen, p) && p.at == |stages|
    ensures PassOk(m, stages, epoch, ranges, rid, seen + OrZero(p.ids), Started(ids))
  {
    hide Seen, ChunkRows, NextToken;
  }

  // ---------------------------------------------------------------- a request

  /** A request of run_request: its prompt, its pass, what it has generated. */
  datatype Request<Row> = Request(prompt: seq<int>, maxTokens: int, pass: Pass<Row>, generated: seq<int>)

  function Wanted(maxTokens: int): nat {
    if maxTokens > 1 then maxTokens else 1
  }

  predicate Finished<Row>(r: Request<Row>) {
    |r.generated| >= Wanted(r.maxTokens)
  }

  function Begun<Row>(prompt: seq<int>, maxTokens: int): Request<Row> {
    Request(prompt, maxTokens, Started(prompt), [])
  }

  /** One stage call on behalf of the request; after the last stage its token is noted and fed to the next pass. */
  function RequestStep<Row, KV>(m: Transformer<Row, KV>, stages: seq<HfState<KV>>, rid: string, r: Request<Row>)
    : (seq<HfState<KV>>, Request<Row>)
    requires StagesOk(m, stages) && HiddenOk(r.pass) && r.pass.at < |stages|
  {
    var (after, p) := PassStep(m, stages, rid, r.pass);
    if p.error.None? && p.at == |stages| && p.token.Some? then
      (after, r.(pass := Started([p.token.value]), generated := r.generated + [p.token.value]))
    else (after, r.(pass := p))
  }

  /** The tokens every stage has been fed before the pass in progress. */
  function FedBefore<Row>(history: seq<int>, r: Request<Row>): seq<int> {
    if r.generated == [] then history
    else history + OrZero(r.prompt) + r.generated[..|r.generated| - 1]
  }

  ghost predicate RequestOk<Row, KV>(m: Transformer<Row, KV>, stages: seq<HfState<KV>>, epoch: int, ranges: seq<LayerRange>,
                                     rid: string, history: seq<int>, r: Request<Row>)
  {
    && r.generated == Greedy(m, history + OrZero(r.prompt), |r.generated|)
    && r.pass.ids == (if r.generated == [] then r.prompt else [r.generated[|r.generated| - 1]])
    && r.pass.at < |stages|
    && PassOk(m, stages, epoch, ranges, rid, FedBefore(history, r), r.pass)
  }

  lemma RequestStepIsRight<Row, KV>(m: Transformer<Row, KV>, stages: seq<HfState<KV>>, epoch: int, ranges: seq<LayerRange>,
                                    rid: string, history: seq<int>, r: Request<Row>)
    requires StagesOk(m, stages) && HiddenOk(r.pass)
    requires RequestOk(m, stages, epoch, ranges, rid, history, r)
    ensures var (after, q) := RequestStep(m, stages, rid, r);
      && RequestOk(m, after, epoch, ranges, rid, history, q)
      && q.prompt == r.prompt && q.maxTokens == r.maxTokens
      && |q.generated| * |stages| + q.pass.at == |r.generated| * |stages| + r.pass.at + 1
  {
    hide SeenBy, PassStep, NextToken, AllServe, CutsModel, ChunkRows, FedBefore, Greedy, PassOk;
    var seen := FedBefore(history, r);
    PassHasStages(m, stages, epoch, ranges, rid, seen, r.pass);
    StepKeepsPassOk(m, stages, epoch, ranges, rid, seen, r.pass);
    var (after, p) := PassStep(m, stages, rid, r.pass);
    PassHasStages(m, after, epoch, ranges, rid, seen, p);
    if p.at == |stages| {
      PassEndIsRight(m, after, epoch, ranges, rid, history, r, p);
      assert (|r.generated| + 1) * |stages| == |r.generated| * |stages| + |stages|;
    } else {
      SameFed(history, r, p);
    }
  }

  lemma PassHasStages<Row, KV>(m: Transformer<Row, KV>, stages: seq<HfState<KV>>, epoch: int, ranges: seq<LayerRange>,
                               rid: string, seen: seq<int>, p: Pass<Row>)
    requires PassOk(m, stages, epoch, ranges, rid, seen, p)
    ensures p.at <= |stages| && p.error.None?
    ensures p.token == if p.at == |stages| then Some(NextToken(m, seen + OrZero(p.ids))) else None
  {
  }

  lemma SameFed<Row>(history: seq<int>, r: Request<Row>, p: Pass<Row>)
    ensures FedBefore(history, r.(pass := p)) == FedBefore(history, r)
  {
  }

  /** At the end of a pass the new token extends the greedy run, and the next pass may begin. */
  lemma PassEndIsRight<Row, KV>(m: Transformer<Row, KV>, after: seq<HfState<KV>>, epoch: int, ranges: seq<LayerRange>,
                                rid: string, history: seq<int>, r: Request<Row>, p: Pass<Row>)
    requires r.generated == Greedy(m, history + OrZero(r.prompt), |r.generated|)
    requires p.ids == if r.generated == [] then r.prompt else [r.generated[|r.generated| - 1]]
    requires PassOk(m, after, epoch, ranges, rid, FedBefore(history, r), p) && p.at == |after| > 0
    ensures p.token.Some?
    ensures RequestOk(m, after, epoch, ranges, rid, history,
                      r.(pass := Started([p.token.value]), generated := r.generated + [p.token.value]))
  {
    hide SeenBy, NextToken, AllServe, CutsModel, ChunkRows, PassOk;
    var seen, start, n := FedBefore(history, r), history + OrZero(r.prompt), |r.generated|;
    PassHasStages(m, after, epoch, ranges, rid, seen, p);
    assert seen + OrZero(p.ids) == start + r.generated by {
      if n > 0 {
        assert r.generated[..n - 1] + [r.generated[n - 1]] == r.generated;
      }
    }
    var q := r.(pass := Started([p.token.value]), generated := r.generated + [p.token.value]);
    NextPassStarts(m, after, epoch, ranges, rid, seen, p, [p.token.value]);
    assert FedBefore(history, q) == start + r.generated by {
      assert q.generated[..n] == r.generated;
    }
  }

  // ---------------------------------------------------------------- any interleaving

  /** Requests in flight over the same stages. */
  datatype World<Row, KV> = World(stages: seq<HfState<KV>>, requests: map<string, Request<Row>>)

  predicate WorldOk<Row, KV>(m: Transformer<Row, KV>, w: World<Row, KV>) {
    && StagesOk(m, w.stages)
    && forall rid :: rid in w.requests ==> HiddenOk(w.requests[rid].pass)
  }

  /** One stage call of one request. A request that has all its tokens, or has failed, makes no more calls. */
  function WorldStep<Row, KV>(m: Transformer<Row, KV>, w: World<Row, KV>, rid: string): World<Row, KV>
    requires WorldOk(m, w)
  {
    if rid !in w.requests then w
    else
      var r := w.requests[rid];
      if Finished(r) || r.pass.error.Some? || r.pass.at >= |w.stages| then w
      else
        var (after, q) := RequestStep(m, w.stages, rid, r);
        World(after, w.requests[rid := q])
  }

  lemma WorldStepOk<Row, KV>(m: Transformer<Row, KV>, w: World<Row, KV>, rid: string)
    requires WorldOk(m, w)
    ensures WorldOk(m, WorldStep(m, w, rid))
  {
    hide PassCall;
  }

  /** The stage calls happen in the order of the schedule; who comes next is up to the scheduler. */
  function RunSchedule<Row, KV>(m: Transformer<Row, KV>, w: World<Row, KV>, schedule: seq<string>): (u: World<Row, KV>)
    requires WorldOk(m, w)
    ensures WorldOk(m, u)
  {
    if schedule == [] then w
    else
      var before := RunSchedule(m, w, schedule[..|schedule| - 1]);
      WorldStepOk(m, before, schedule[|schedule| - 1]);
      WorldStep(m, before, schedule[|schedule| - 1])
  }

  /** How many calls of this request the schedule holds. */
  function Turns(schedule: seq<string>, rid: string): nat {
    if schedule == [] then 0
    else Turns(schedule[..|schedule| - 1], rid) + if schedule[|schedule| - 1] == rid then 1 else 0
  }

  /** All requests have fresh ids: no stage holds anything of them. */
  ghost predicate FreshStart<Row, KV>(m: Transformer<Row, KV>, w: World<Row, KV>, epoch: int, ranges: seq<LayerRange>) {
    && AllServe(m, w.stages, epoch, ranges) && CutsModel(ranges, m.numLayers)
    && forall rid :: rid in w.requests ==>
      && w.requests[rid] == Begun(w.requests[rid].prompt, w.requests[rid].maxTokens)
      && forall i :: 0 <= i < |w.stages| ==> (epoch, rid) !in w.stages[i].caches
  }

  /** Where a request stands after so many turns of its own: all that a solo run would have computed by then. */
  ghost predicate StandsAt<Row, KV>(m: Transformer<Row, KV>, u: World<Row, KV>, epoch: int, ranges: seq<LayerRange>,
                                    rid: string, start: Request<Row>, turns: nat)
  {
    && rid in u.requests
    && u.requests[rid].prompt == start.prompt && u.requests[rid].maxTokens == start.maxTokens
    && RequestOk(m, u.stages, epoch, ranges, rid, [], u.requests[rid])
    && Progress(u.requests[rid], |u.stages|, turns)
  }

  /** Turns taken so far, until the request has all its tokens. */
  ghost predicate Progress<Row>(r: Request<Row>, stages: nat, turns: nat) {
    && |r.generated| <= Wanted(r.maxTokens)
    && |r.generated| * stages + r.pass.at == if turns < Wanted(r.maxTokens) * stages then turns else Wanted(r.maxTokens) * stages
  }

  lemma BegunStands<Row, KV>(m: Transformer<Row, KV>, w: World<Row, KV>, epoch: int, ranges: seq<LayerRange>, rid: string)
    requires WorldOk(m, w) && FreshStart(m, w, epoch, ranges) && rid in w.requests
    ensures StandsAt(m, w, epoch, ranges, rid, w.requests[rid], 0)
  {
    hide CacheOf, ChunkRows, NextToken;
    forall i | 0 <= i < |w.stages|
      ensures Seen(m, w.stages[i], ranges[i], rid, [])
    {
      assert Fits(ranges[i], m.numLayers) && Serves(w.stages[i], epoch, ranges[i]);
      NoCacheNothingSeen(m, w.stages[i], ranges[i], rid);
    }
    assert 0 < Wanted(w.requests[rid].maxTokens) * |w.stages|;
  }

  lemma StepStands<Row, KV>(m: Transformer<Row, KV>, u: World<Row, KV>, epoch: int, ranges: seq<LayerRange>,
                            rid: string, start: Request<Row>, turns: nat, next: string)
    requires WorldOk(m, u) && StandsAt(m, u, epoch, ranges, rid, start, turns)
    ensures StandsAt(m, WorldStep(m, u, next), epoch, ranges, rid, start, if next == rid then turns + 1 else turns)
  {
    hide PassOk, Greedy, PassStep;
    var r := u.requests[rid];
    if next == rid {
      if !Finished(r) {
        PassNotFailed(m, u.stages, epoch, ranges, rid, FedBefore([], r), r.pass);
        RequestStepIsRight(m, u.stages, epoch, ranges, rid, [], r);
        var (after, q) := RequestStep(m, u.stages, rid, r);
        StepProgress(r, q, |u.stages|, turns);
        assert |after| == |u.stages|;
      } else {
        DoneProgress(r, |u.stages|, turns);
      }
    } else if next in u.requests {
      var s := u.requests[next];
      if !(Finished(s) || s.pass.error.Some? || s.pass.at >= |u.stages|) {
        StepUnnoticed(m, u.stages, next, s.pass);
        OthersStayOk(m, u.stages, RequestStep(m, u.stages, next, s).0, epoch, ranges, next, rid, FedBefore([], r), r.pass);
      }
    }
  }

  lemma PassNotFailed<Row, KV>(m: Transformer<Row, KV>, stages: seq<HfState<KV>>, epoch: int, ranges: seq<LayerRange>,
                               rid: string, seen: seq<int>, p: Pass<Row>)
    requires PassOk(m, stages, epoch, ranges, rid, seen, p)
    ensures p.error.None?
  {
  }

  lemma RoomForOneMore(n: nat, w: nat, stages: nat)
    requires n < w
    ensures n * stages + stages <= w * stages
  {
    assert (w - n - 1) * stages >= 0;
    assert w * stages == n * stages + stages + (w - n - 1) * stages;
  }

  lemma StepProgress<Row>(r: Request<Row>, q: Request<Row>, stages: nat, turns: nat)
    requires Progress(r, stages, turns) && !Finished(r) && r.pass.at < stages && q.pass.at < stages
    requires q.maxTokens == r.maxTokens
    requires |q.generated| * stages + q.pass.at == |r.generated| * stages + r.pass.at + 1
    ensures Progress(q, stages, turns + 1)
  {
    RoomForOneMore(|r.generated|, Wanted(r.maxTokens), stages);
    if Wanted(r.maxTokens) < |q.generated| {
      RoomForOneMore(Wanted(r.maxTokens), |q.generated|, stages);
    }
  }

  lemma DoneProgress<Row>(r: Request<Row>, stages: nat, turns: nat)
    requires Progress(r, stages, turns) && Finished(r)
    ensures Progress(r, stages, turns + 1)
  {
  }

  /** Isolation. Whatever the order in which the requests' stage calls come, each request stands where its own number of
      turns puts it, with exactly the tokens an uncached greedy run over its own prompt gives. */
  lemma {:induction false} InterleavingIsInvisible<Row, KV>(
      m: Transformer<Row, KV>, w: World<Row, KV>, epoch: int, ranges: seq<LayerRange>, schedule: seq<string>, rid: string)
    requires WorldOk(m, w) && FreshStart(m, w, epoch, ranges) && rid in w.requests
    ensures StandsAt(m, RunSchedule(m, w, schedule), epoch, ranges, rid, w.requests[rid], Turns(schedule, rid))
  {
    hide WorldOk, FreshStart, StandsAt, WorldStep;
    if schedule == [] {
      BegunStands(m, w, epoch, ranges, rid);
    } else {
      var n := |schedule| - 1;
      InterleavingIsInvisible(m, w, epoch, ranges, schedule[..n], rid);
      StepStands(m, RunSchedule(m, w, schedule[..n]), epoch, ranges, rid, w.requests[rid], Turns(schedule[..n], rid), schedule[n]);
    }
  }

  /** So with enough turns a request has all its tokens, the ones it would have got alone, and every stage's cache holds
      the prompt and one position for each decode step. */
  lemma EnoughTurnsFinish<Row, KV>(
      m: Transformer<Row, KV>, w: World<Row, KV>, epoch: int, ranges: seq<LayerRange>, schedule: seq<string>, rid: string)
    requires WorldOk(m, w) && FreshStart(m, w, epoch, ranges) && rid in w.requests
    requires Turns(schedule, rid) >= Wanted(w.requests[rid].maxTokens) * |w.stages|
    ensures var u := RunSchedule(m, w, schedule);
      var n := Wanted(w.requests[rid].maxTokens);
      && rid in u.requests
      && u.requests[rid].generated == Greedy(m, OrZero(w.requests[rid].prompt), n)
      && forall i :: 0 <= i < |u.stages| ==> SeqLength(CacheFor(u.stages[i], rid)) == |OrZero(w.requests[rid].prompt)| + n - 1
  {
    hide RunSchedule, WorldOk, WorldStep, Turns, Greedy, CacheOf, ChunkRows, NextToken;
    InterleavingIsInvisible(m, w, epoch, ranges, schedule, rid);
    StageCountKept(m, w, schedule);
    var u, n := RunSchedule(m, w, schedule), Wanted(w.requests[rid].maxTokens);
    var r := u.requests[rid];
    AllTokensThere(r, |u.stages|, Turns(schedule, rid));
    assert [] + OrZero(r.prompt) == OrZero(r.prompt);
    forall i | 0 <= i < |u.stages|
      ensures SeqLength(CacheFor(u.stages[i], rid)) == |OrZero(r.prompt)| + n - 1
    {
      assert Fits(ranges[i], m.numLayers);
      PositionIsTokensSeen(m, u.stages[i], ranges[i], rid, FedBefore([], r));
    }
  }

  lemma AllTokensThere<Row>(r: Request<Row>, stages: nat, turns: nat)
    requires Progress(r, stages, turns) && turns >= Wanted(r.maxTokens) * stages && r.pass.at < stages
    ensures |r.generated| == Wanted(r.maxTokens) && r.pass.at == 0
  {
    if |r.generated| < Wanted(r.maxTokens) {
      RoomForOneMore(|r.generated|, Wanted(r.maxTokens), stages);
    }
  }

  lemma {:induction false} StageCountKept<Row, KV>(m: Transformer<Row, KV>, w: World<Row, KV>, schedule: seq<string>)
    requires WorldOk(m, w)
    ensures |RunSchedule(m, w, schedule).stages| == |w.stages|
  {
    hide WorldOk, PassStep;
    if schedule != [] {
      StageCountKept(m, w, schedule[..|schedule| - 1]);
    }
  }
}
