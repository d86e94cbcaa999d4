/** A stage that keeps a key-value cache for each request (backends/hf_layered_engine.py, HFLayeredEngine). */
module HfEngine {
  import opened Types
  import opened CachedModel

  datatype HfError =
    | WrongNode
    | InvalidRange(range: LayerRange)
    | NotPrepared(epoch: int)
    | NoActiveEpoch
    | TokensNeeded
    | HiddenNeeded
    | NoAliveNode

  /** What a stage call returns: hidden rows for the next stage, or a token if this is the last stage. */
  datatype StageAnswer<+Row> = StageAnswer(hidden: Option<seq<Row>>, token: Option<int>)

  /** Caches are filed under the epoch that was active when they were made, and the request id. */
  datatype HfState<KV> = HfState(prepared: map<int, LayerRange>, active: Option<int>, caches: map<(int, string), Cache<KV>>)

  // ---------------------------------------------------------------- the engine as a value

  function Prepared<KV>(nodeId: NodeId, numLayers: nat, s: HfState<KV>, a: StageAssignment): Result<HfState<KV>, HfError> {
    var r := a.layerRange;
    if a.nodeId != nodeId then Failure(WrongNode)
    else if r.start < 0 || r.end <= r.start || r.end > numLayers then Failure(InvalidRange(r))
    else Success(s.(prepared := s.prepared[a.epoch := r]))
  }

  function Activated<KV>(s: HfState<KV>, epoch: int): Result<HfState<KV>, HfError> {
    if epoch !in s.prepared then Failure(NotPrepared(epoch)) else Success(s.(active := Some(epoch)))
  }

  /** Retiring an epoch drops its stage and every cache filed under it. */
  function Retired<KV>(s: HfState<KV>, epoch: int): HfState<KV> {
    HfState(s.prepared - {epoch}, if s.active == Some(epoch) then None else s.active,
            map k | k in s.caches && k.0 != epoch :: s.caches[k])
  }

  /** Releasing a request drops its caches under every epoch. */
  function Released<KV>(s: HfState<KV>, rid: string): HfState<KV> {
    s.(caches := map k | k in s.caches && k.1 != rid :: s.caches[k])
  }

  function CacheEpoch<KV>(s: HfState<KV>): int {
    if s.active.Some? then s.active.value else 0
  }

  function CacheFor<KV>(s: HfState<KV>, rid: string): Cache<KV> {
    if (CacheEpoch(s), rid) in s.caches then s.caches[(CacheEpoch(s), rid)] else []
  }

  /** An empty token list is replaced by the single token 0. */
  function OrZero(ids: seq<int>): (r: seq<int>)
    ensures r != []
  {
    if ids == [] then [0] else ids
  }

  predicate Fits(r: LayerRange, numLayers: nat) {
    0 <= r.start < r.end <= numLayers
  }

  predicate RangesOk<KV>(numLayers: nat, s: HfState<KV>) {
    forall e :: e in s.prepared ==> Fits(s.prepared[e], numLayers)
  }

  function Forwarded<Row, KV>(m: Transformer<Row, KV>, s: HfState<KV>, rid: string, r: LayerRange, rows: seq<Row>)
    : (StageAnswer<Row>, HfState<KV>)
    requires 0 <= r.start < r.end && rows != []
  {
    var c := CacheFor(s, rid);
    var (h, d) := StageForward(m, r.start, r.end - r.start, rows, SeqLength(c), c);
    (if r.end == m.numLayers then StageAnswer(None, Some((m.head)(h[|h| - 1]))) else StageAnswer(Some(h), None),
     s.(caches := s.caches[(CacheEpoch(s), rid) := d]))
  }

  /** prefill and decode: the first stage reads tokens, the others the hidden rows of the stage before. */
  function CallResult<Row, KV>(m: Transformer<Row, KV>, s: HfState<KV>, rid: string, ids: Option<seq<int>>, hidden: Option<seq<Row>>)
    : Result<(StageAnswer<Row>, HfState<KV>), HfError>
    requires RangesOk(m.numLayers, s)
    requires hidden.Some? ==> hidden.value != []
  {
    if s.active.None? then Failure(NoActiveEpoch)
    else
      var e: int := s.active.value;
      if e !in s.prepared then Failure(NoActiveEpoch)
      else if s.prepared[e].start == 0 then
        if ids.None? then Failure(TokensNeeded)
        else Success(Forwarded(m, s, rid, s.prepared[e], Embedded(m, OrZero(ids.value))))
      else
        if hidden.None? then Failure(HiddenNeeded) else Success(Forwarded(m, s, rid, s.prepared[e], hidden.value))
  }

  // ---------------------------------------------------------------- what a stage has seen of a request

  ghost predicate Serves<KV>(s: HfState<KV>, epoch: int, r: LayerRange) {
    s.active == Some(epoch) && epoch in s.prepared && s.prepared[epoch] == r
  }

  /** Under its active epoch the stage's cache for the request is the one these tokens fill. */
  ghost predicate Seen<Row, KV>(m: Transformer<Row, KV>, s: HfState<KV>, r: LayerRange, rid: string, tokens: seq<int>)
    requires 0 <= r.start < r.end
  {
    CacheOf(m, r.start, r.end - r.start, tokens, CacheFor(s, rid))
  }

  /** A stage call changes one cache and nothing else, whatever the outcome. */
  lemma CallTouchesOneCache<Row, KV>(m: Transformer<Row, KV>, s: HfState<KV>, rid: string, ids: Option<seq<int>>, hidden: Option<seq<Row>>)
    requires RangesOk(m.numLayers, s) && (hidden.Some? ==> hidden.value != [])
    ensures var r := CallResult(m, s, rid, ids, hidden);
      r.Success? ==>
        && r.value.1.prepared == s.prepared && r.value.1.active == s.active
        && r.value.1.caches - {(CacheEpoch(s), rid)} == s.caches - {(CacheEpoch(s), rid)}
        && (forall other :: other != rid ==> CacheFor(r.value.1, other) == CacheFor(s, other))
        && (r.value.0.hidden.Some? ==> r.value.0.hidden.value != [])
  {
    hide StageForward;
  }

  /** A stage that has seen some tokens, called with the next chunk, answers as the whole uncached model would at that
      layer, and has then seen the chunk too. */
  lemma CallIsRight<Row, KV>(m: Transformer<Row, KV>, s: HfState<KV>, epoch: int, r: LayerRange, rid: string,
                             seen: seq<int>, chunk: seq<int>, ids: Option<seq<int>>, hidden: Option<seq<Row>>)
    requires RangesOk(m.numLayers, s) && Serves(s, epoch, r) && chunk != []
    requires Seen(m, s, r, rid, seen)
    requires if r.start == 0 then ids.Some? && OrZero(ids.value) == chunk
      else hidden == Some(ChunkRows(m, r.start, seen, chunk))
    requires hidden.Some? ==> hidden.value != []
    ensures var c := CallResult(m, s, rid, ids, hidden);
      && c.Success?
      && Seen(m, c.value.1, r, rid, seen + chunk)
      && (r.end < m.numLayers ==> c.value.0 == StageAnswer(Some(ChunkRows(m, r.end, seen, chunk)), None))
      && (r.end == m.numLayers ==> c.value.0 == StageAnswer(None, Some(NextToken(m, seen + chunk))))
  {
    hide StageForward, RowAt, CacheOf;
    var n := r.end - r.start;
    EmbeddedRows(m, seen, chunk);
    CacheLength(m, r.start, n, seen, CacheFor(s, rid));
    StageForwardIsRight(m, r.start, n, n, seen, chunk, CacheFor(s, rid));
  }

  /** A request without a cache under the active epoch is, to the stage, one of which nothing has been seen. */
  lemma NoCacheNothingSeen<Row, KV>(m: Transformer<Row, KV>, s: HfState<KV>, r: LayerRange, rid: string)
    requires 0 <= r.start < r.end && (CacheEpoch(s), rid) !in s.caches
    ensures Seen(m, s, r, rid, [])
  {
    EmptyCacheIsFresh(m, r.start, r.end - r.start);
  }

  /** Releasing a request, on any stage in any state, makes its id new again and leaves the others alone. */
  lemma ReleaseMakesFresh<Row, KV>(m: Transformer<Row, KV>, s: HfState<KV>, r: LayerRange, rid: string, other: string, t: seq<int>)
    requires 0 <= r.start < r.end && other != rid
    ensures Seen(m, Released(s, rid), r, rid, [])
    ensures Seen(m, Released(s, rid), r, other, t) <==> Seen(m, s, r, other, t)
  {
    NoCacheNothingSeen(m, Released(s, rid), r, rid);
  }

  /** Switching to an epoch under which a request has no cache loses what the stage had seen of it, and nothing reports it:
      the next call succeeds as if the request had just begun. */
  lemma SwitchForgets<Row, KV>(m: Transformer<Row, KV>, s: HfState<KV>, epoch: int, rid: string)
    requires RangesOk(m.numLayers, s) && epoch in s.prepared && (epoch, rid) !in s.caches
    ensures Activated(s, epoch).Success?
    ensures Seen(m, Activated(s, epoch).value, s.prepared[epoch], rid, [])
  {
    NoCacheNothingSeen(m, Activated(s, epoch).value, s.prepared[epoch], rid);
  }

  /** Retiring an epoch a stage is not running disturbs no request. */
  lemma RetireKeepsOthers<Row, KV>(m: Transformer<Row, KV>, s: HfState<KV>, epoch: int, r: LayerRange, rid: string, t: seq<int>, e: int)
    requires 0 <= r.start < r.end && Serves(s, e, r) && epoch != e
    ensures Serves(Retired(s, epoch), e, r)
    ensures Seen(m, Retired(s, epoch), r, rid, t) <==> Seen(m, s, r, rid, t)
  {
    assert CacheFor(Retired(s, epoch), rid) == CacheFor(s, rid);
  }

  /** A retired epoch leaves nothing behind: it is neither prepared nor active, no cache is filed under it, and everything
      else stands. */
  ghost predicate Forgotten<KV>(s: HfState<KV>, t: HfState<KV>, epoch: int) {
    && epoch !in t.prepared && t.active != Some(epoch)
    && (forall k :: k in t.caches <==> k in s.caches && k.0 != epoch)
    && (forall k :: k in t.caches ==> t.caches[k] == s.caches[k])
    && (forall e :: e != epoch ==> (e in t.prepared <==> e in s.prepared) && (e in s.prepared ==> t.prepared[e] == s.prepared[e]))
    && (s.active != Some(epoch) ==> t.active == s.active)
  }

  lemma RetireForgets<KV>(s: HfState<KV>, epoch: int)
    ensures Forgotten(s, Retired(s, epoch), epoch)
  {
    var t := Retired(s, epoch);
    forall e | e != epoch
      ensures e in t.prepared <==> e in s.prepared
      ensures e in s.prepared ==> t.prepared[e] == s.prepared[e]
    {
      assert e in t.prepared <==> e in s.prepared;
    }
  }

  /** So an epoch that is retired, prepared again and activated again starts every request afresh. */
  lemma RetiredEpochStartsAfresh<Row, KV>(m: Transformer<Row, KV>, nodeId: NodeId, s: HfState<KV>, a: StageAssignment, rid: string)
    requires Prepared(nodeId, m.numLayers, Retired(s, a.epoch), a).Success?
    ensures var again := Activated(Prepared(nodeId, m.numLayers, Retired(s, a.epoch), a).value, a.epoch);
      again.Success? && Serves(again.value, a.epoch, a.layerRange) && Fits(a.layerRange, m.numLayers)
      && Seen(m, again.value, a.layerRange, rid, [])
  {
    RetireForgets(s, a.epoch);
    var t := Prepared(nodeId, m.numLayers, Retired(s, a.epoch), a).value;
    assert (a.epoch, rid) !in t.caches;
    NoCacheNothingSeen(m, Activated(t, a.epoch).value, a.layerRange, rid);
  }

  /** A released request is new under every epoch, and no cache of another request is touched. */
  lemma ReleaseForgetsEverywhere<Row, KV>(m: Transformer<Row, KV>, s: HfState<KV>, epoch: int, r: LayerRange, rid: string)
    requires 0 <= r.start < r.end && epoch in s.prepared
    ensures var t := Released(s, rid);
      && t.prepared == s.prepared && t.active == s.active
      && (forall k :: k in t.caches <==> k in s.caches && k.1 != rid)
      && (forall k :: k in t.caches ==> t.caches[k] == s.caches[k])
      && Activated(t, epoch).Success? && Seen(m, Activated(t, epoch).value, r, rid, [])
  {
    NoCacheNothingSeen(m, Activated(Released(s, rid), epoch).value, r, rid);
  }

  /** Preparing stores the range for its epoch when the assignment is the node's own and lies in the model, and touches
      nothing else. */
  lemma PrepareStoresRange<KV>(nodeId: NodeId, numLayers: nat, s: HfState<KV>, a: StageAssignment)
    ensures var p := Prepared(nodeId, numLayers, s, a);
      && (p.Success? <==> a.nodeId == nodeId && 0 <= a.layerRange.start < a.layerRange.end <= numLayers)
      && (p.Failure? ==> if a.nodeId != nodeId then p.error == WrongNode else p.error == InvalidRange(a.layerRange))
      && (p.Success? ==>
        && a.epoch in p.value.prepared && p.value.prepared[a.epoch] == a.layerRange
        && p.value.prepared - {a.epoch} == s.prepared - {a.epoch}
        && p.value.active == s.active && p.value.caches == s.caches)
  {
  }

  /** Switching to another epoch and back finds every request where it was. */
  lemma SwitchBackRemembers<Row, KV>(m: Transformer<Row, KV>, s: HfState<KV>, e: int, other: int, r: LayerRange, rid: string, t: seq<int>)
    requires 0 <= r.start < r.end && Serves(s, e, r) && other in s.prepared
    ensures Activated(s, other).Success? && Activated(Activated(s, other).value, e).Success?
    ensures var back := Activated(Activated(s, other).value, e).value;
      Serves(back, e, r) && (Seen(m, back, r, rid, t) <==> Seen(m, s, r, rid, t))
  {
  }

  /** A call succeeds exactly on an active, prepared epoch with the input its stage reads, and an empty list of tokens
      stands for token 0. */
  lemma CallSucceedsIff<Row, KV>(m: Transformer<Row, KV>, s: HfState<KV>, rid: string, ids: Option<seq<int>>, hidden: Option<seq<Row>>)
    requires RangesOk(m.numLayers, s) && (hidden.Some? ==> hidden.value != [])
    ensures CallResult(m, s, rid, ids, hidden).Success? <==>
      && s.active.Some? && s.active.value in s.prepared
      && if s.prepared[s.active.value].start == 0 then ids.Some? else hidden.Some?
    ensures CallResult(m, s, rid, ids, hidden).Failure? ==>
      CallResult(m, s, rid, ids, hidden).error ==
        if s.active.None? || s.active.value !in s.prepared then NoActiveEpoch
        else if s.prepared[s.active.value].start == 0 then TokensNeeded
        else HiddenNeeded
    ensures CallResult(m, s, rid, Some([]), hidden) == CallResult(m, s, rid, Some([0]), hidden)
  {
    hide Forwarded;
  }

  // ---------------------------------------------------------------- the engine

  class HFLayeredEngine<Row(!new), KV(!new)> {
    const nodeId: NodeId
    const m: Transformer<Row, KV>
    var prepared: map<int, LayerRange>
    var activeEpoch: Option<int>
    var caches: map<(int, string), Cache<KV>>

    constructor (nodeId: NodeId, m: Transformer<Row, KV>)
      ensures this.nodeId == nodeId && this.m == m
      ensures State() == HfState(map[], None, map[])
    {
      this.nodeId := nodeId;
      this.m := m;
      prepared := map[];
      activeEpoch := None;
      caches := map[];
    }

    function State(): HfState<KV>
      reads this
    {
      HfState(prepared, activeEpoch, caches)
    }

    predicate Valid()
      reads this
    {
      RangesOk(m.numLayers, State())
    }

    method PrepareEpoch(a: StageAssignment) returns (r: Result<(), HfError>)
      requires Valid()
      modifies this`prepared
      ensures Valid()
      ensures match Prepared(nodeId, m.numLayers, old(State()), a)
        case Success(s) => r.Success? && State() == s
        case Failure(e) => r == Failure(e) && State() == old(State())
    {
      if a.nodeId != nodeId {
        return Failure(WrongNode);
      }
      var range := a.layerRange;
      if range.start < 0 || range.end <= range.start || range.end > m.numLayers {
        return Failure(InvalidRange(range));
      }
      prepared := prepared[a.epoch := range];
      return Success(());
    }

    method ActivateEpoch(epoch: int) returns (r: Result<(), HfError>)
      modifies this`activeEpoch
      ensures match Activated(old(State()), epoch)
        case Success(s) => r.Success? && State() == s
        case Failure(e) => r == Failure(e) && State() == old(State())
    {
      if epoch !in prepared {
        return Failure(NotPrepared(epoch));
      }
      activeEpoch := Some(epoch);
      return Success(());
    }

    method RetireEpoch(epoch: int)
      requires Valid()
      modifies this
      ensures Valid() && State() == Retired(old(State()), epoch)
      ensures Forgotten(old(State()), State(), epoch)
    {
      hide Forgotten;
      RetireForgets(State(), epoch);
      prepared := prepared - {epoch};
      if Some(epoch) == activeEpoch {
        activeEpoch := None;
      }
      DropCaches(epoch);
    }

    /** Every cache filed under the epoch goes. */
    method DropCaches(epoch: int)
      modifies this`caches
      ensures caches == map k | k in old(caches) && k.0 != epoch :: old(caches)[k]
    {
      var todo := set k | k in caches && k.0 == epoch;
      while todo != {}
        invariant todo <= set k | k in old(caches) && k.0 == epoch
        invariant caches == map k | k in old(caches) && (k.0 != epoch || k in todo) :: old(caches)[k]
        decreases todo
      {
        var k :| k in todo;
        todo := todo - {k};
        caches := caches - {k};
      }
    }

    method ReleaseRequest(rid: string)
      modifies this`caches
      ensures State() == Released(old(State()), rid)
    {
      var todo := set k | k in caches && k.1 == rid;
      while todo != {}
        invariant todo <= set k | k in old(caches) && k.1 == rid
        invariant caches == map k | k in old(caches) && (k.1 != rid || k in todo) :: old(caches)[k]
        decreases todo
      {
        var k :| k in todo;
        todo := todo - {k};
        caches := caches - {k};
      }
    }

    /** _forward: the rows go through the layers of the stage one by one, and each layer's slot of the cache grows. */
    method Forward(rid: string, range: LayerRange, rows: seq<Row>) returns (a: StageAnswer<Row>)
      requires 0 <= range.start < range.end && rows != []
      modifies this`caches
      ensures (a, State()) == Forwarded(m, old(State()), rid, range, rows)
    {
      hide StageForward, Slot, WithSlot, NewKeys, Attended;
      NoLayers(m, range.start, rows, CacheFor(State(), rid));
      var key := (CacheEpoch(State()), rid);
      var cache: Cache<KV> := if key in caches then caches[key] else [];
      ghost var c := cache;
      var past := SeqLength(cache);
      var hidden := rows;
      for k := 0 to range.end - range.start
        invariant (hidden, cache) == StageForward(m, range.start, k, rows, past, c)
        invariant caches == old(caches)
      {
        OneMoreLayer(m, range.start, k, rows, past, c);
        var keys := Slot(cache, k) + NewKeys(m, range.start + k, hidden, past);
        hidden := Attended(m, range.start + k, hidden, past, keys);
        cache := WithSlot(cache, k, keys);
      }
      caches := caches[key := cache];
      if range.end == m.numLayers {
        a := StageAnswer(None, Some((m.head)(hidden[|hidden| - 1])));
      } else {
        a := StageAnswer(Some(hidden), None);
      }
    }

    /** prefill; decode is the same call with a list of one token. A failed call changes nothing. */
    method Prefill(rid: string, ids: Option<seq<int>>, hidden: Option<seq<Row>>) returns (r: Result<StageAnswer<Row>, HfError>)
      requires Valid() && (hidden.Some? ==> hidden.value != [])
      modifies this`caches
      ensures Valid()
      ensures match CallResult(m, old(State()), rid, ids, hidden)
        case Success((a, s)) => r == Success(a) && State() == s
        case Failure(e) => r == Failure(e) && State() == old(State())
    {
      hide StageForward;
      if activeEpoch.None? {
        return Failure(NoActiveEpoch);
      }
      var epoch: int := activeEpoch.value;
      if epoch !in prepared {
        return Failure(NoActiveEpoch);
      }
      var range := prepared[epoch];
      var answer;
      if range.start == 0 {
        if ids.None? {
          return Failure(TokensNeeded);
        }
        answer := Forward(rid, range, Embedded(m, OrZero(ids.value)));
      } else {
        if hidden.None? {
          return Failure(HiddenNeeded);
        }
        answer := Forward(rid, range, hidden.value);
      }
      return Success(answer);
    }

    method Decode(rid: string, token: Option<int>, hidden: Option<seq<Row>>) returns (r: Result<StageAnswer<Row>, HfError>)
      requires Valid() && (hidden.Some? ==> hidden.value != [])
      modifies this`caches
      ensures Valid()
      ensures match CallResult(m, old(State()), rid, if token.None? then None else Some([token.value]), hidden)
        case Success((a, s)) => r == Success(a) && State() == s
        case Failure(e) => r == Failure(e) && State() == old(State())
    {
      r := Prefill(rid, if token.None? then None else Some([token.value]), hidden);
    }

    /** request_positions: how many tokens each request has been fed under the active epoch. */
    method RequestPositions() returns (positions: map<string, nat>)
      ensures forall rid :: rid in positions <==> (CacheEpoch(State()), rid) in caches
      ensures forall rid :: rid in positions ==> positions[rid] == SeqLength(CacheFor(State(), rid))
    {
      var epoch := CacheEpoch(State());
      positions := map k | k in caches && k.0 == epoch :: k.1 := SeqLength(caches[k]);
    }
  }

  lemma NoLayers<Row, KV>(m: Transformer<Row, KV>, start: nat, rows: seq<Row>, c: Cache<KV>)
    ensures StageForward(m, start, 0, rows, SeqLength(c), c) == (rows, c)
  {
  }

  /** The reported position of a request is the number of tokens the stage has seen. */
  lemma PositionIsTokensSeen<Row, KV>(m: Transformer<Row, KV>, s: HfState<KV>, r: LayerRange, rid: string, tokens: seq<int>)
    requires 0 <= r.start < r.end && Seen(m, s, r, rid, tokens)
    ensures SeqLength(CacheFor(s, rid)) == |tokens|
  {
    CacheLength(m, r.start, r.end - r.start, tokens, CacheFor(s, rid));
  }
}
