/** A causal language model with a key-value cache, run in chunks and in stages, against the same model without any cache
    (backends/hf_layered_engine.py, _forward; experiments/verify_equivalence.py). Numbers are values of arbitrary types. */
module CachedModel {

  /** A layer turns a token's hidden row into a key/value for its cache slot, and its row and everything cached up to its
      own position into its next row: the causal mask. The position enters both (rotary embedding). */
  datatype Transformer<!Row, !KV> = Transformer(
    numLayers: nat,
    embed: int -> Row,
    key: (nat, Row, nat) -> KV,
    attend: (nat, Row, nat, seq<KV>) -> Row,
    head: Row -> int)

  /** One key/value list for each layer of a stage, counted from the stage's first layer. */
  type Cache<KV> = seq<seq<KV>>

  // ---------------------------------------------------------------- without a cache

  /** The hidden row at position i after the first `layer` layers, recomputed from the tokens alone. */
  function RowAt<Row, KV>(m: Transformer<Row, KV>, layer: nat, tokens: seq<int>, i: nat): Row
    requires i < |tokens|
    decreases layer, 0
  {
    if layer == 0 then (m.embed)(tokens[i])
    else (m.attend)(layer - 1, RowAt(m, layer - 1, tokens, i), i, KeysAt(m, layer - 1, tokens, i + 1))
  }

  /** What the given layer would cache for the first n tokens. */
  function KeysAt<Row, KV>(m: Transformer<Row, KV>, layer: nat, tokens: seq<int>, n: nat): (r: seq<KV>)
    requires n <= |tokens|
    ensures |r| == n
    decreases layer, 1
  {
    seq(n, j requires 0 <= j < n => (m.key)(layer, RowAt(m, layer, tokens, j), j))
  }

  function NextToken<Row, KV>(m: Transformer<Row, KV>, tokens: seq<int>): int
    requires tokens != []
  {
    (m.head)(RowAt(m, m.numLayers, tokens, |tokens| - 1))
  }

  /** Greedy decoding of n tokens, recomputing everything for each of them. */
  function Greedy<Row, KV>(m: Transformer<Row, KV>, tokens: seq<int>, n: nat): (r: seq<int>)
    requires tokens != []
    ensures |r| == n
  {
    if n == 0 then []
    else
      var r := Greedy(m, tokens, n - 1);
      r + [NextToken(m, tokens + r)]
  }

  /** Later tokens do not change earlier rows. */
  lemma {:induction false} LaterTokensDoNotMatter<Row, KV>(m: Transformer<Row, KV>, layer: nat, t: seq<int>, more: seq<int>, i: nat)
    requires i < |t|
    ensures RowAt(m, layer, t + more, i) == RowAt(m, layer, t, i)
    decreases layer, 0
  {
    if layer > 0 {
      LaterTokensDoNotMatter(m, layer - 1, t, more, i);
      EarlierKeys(m, layer - 1, t, more, i + 1);
    }
  }

  lemma EarlierKeys<Row, KV>(m: Transformer<Row, KV>, layer: nat, t: seq<int>, more: seq<int>, n: nat)
    requires n <= |t|
    ensures KeysAt(m, layer, t + more, n) == KeysAt(m, layer, t, n)
    ensures KeysAt(m, layer, t + more, |t| + |more|)[..n] == KeysAt(m, layer, t, n)
    decreases layer, 1
  {
    forall j | 0 <= j < n
      ensures RowAt(m, layer, t + more, j) == RowAt(m, layer, t, j)
    {
      LaterTokensDoNotMatter(m, layer, t, more, j);
    }
  }

  // ---------------------------------------------------------------- with a cache

  function Slot<KV>(c: Cache<KV>, k: nat): seq<KV> {
    if k < |c| then c[k] else []
  }

  /** Writing a slot that does not exist yet creates the missing ones. */
  function WithSlot<KV>(c: Cache<KV>, k: nat, v: seq<KV>): (r: Cache<KV>)
    ensures Slot(r, k) == v
    ensures forall j: nat :: j != k ==> Slot(r, j) == Slot(c, j)
  {
    if k < |c| then c[k := v] else c + seq(k - |c|, _ => []) + [v]
  }

  function SeqLength<KV>(c: Cache<KV>): nat {
    |Slot(c, 0)|
  }

  function NewKeys<Row, KV>(m: Transformer<Row, KV>, layer: nat, rows: seq<Row>, past: nat): (r: seq<KV>)
    ensures |r| == |rows|
  {
    seq(|rows|, i requires 0 <= i < |rows| => (m.key)(layer, rows[i], past + i))
  }

  /** One layer over a chunk of rows: each row sees the old keys and the new ones up to itself. */
  function Attended<Row, KV>(m: Transformer<Row, KV>, layer: nat, rows: seq<Row>, past: nat, keys: seq<KV>): (r: seq<Row>)
    requires |keys| >= |rows|
    ensures |r| == |rows|
  {
    var before := |keys| - |rows|;
    seq(|rows|, i requires 0 <= i < |rows| => (m.attend)(layer, rows[i], past + i, keys[..before + i + 1]))
  }

  /** Layers start to start + n - 1 over a chunk, growing the cache slots as they go. */
  function StageForward<Row, KV>(m: Transformer<Row, KV>, start: nat, n: nat, rows: seq<Row>, past: nat, c: Cache<KV>)
    : (r: (seq<Row>, Cache<KV>))
    ensures |r.0| == |rows|
  {
    if n == 0 then (rows, c)
    else
      var (h, d) := StageForward(m, start, n - 1, rows, past, c);
      var keys := Slot(d, n - 1) + NewKeys(m, start + n - 1, h, past);
      (Attended(m, start + n - 1, h, past, keys), WithSlot(d, n - 1, keys))
  }

  lemma OneMoreLayer<Row, KV>(m: Transformer<Row, KV>, start: nat, k: nat, rows: seq<Row>, past: nat, c: Cache<KV>)
    ensures var (h, d) := StageForward(m, start, k, rows, past, c);
      var keys := Slot(d, k) + NewKeys(m, start + k, h, past);
      StageForward(m, start, k + 1, rows, past, c) == (Attended(m, start + k, h, past, keys), WithSlot(d, k, keys))
  {
  }

  /** The rows of a chunk that follows the tokens already seen. */
  function ChunkRows<Row, KV>(m: Transformer<Row, KV>, layer: nat, seen: seq<int>, chunk: seq<int>): (r: seq<Row>)
    ensures |r| == |chunk|
  {
    seq(|chunk|, i requires 0 <= i < |chunk| => RowAt(m, layer, seen + chunk, |seen| + i))
  }

  function Embedded<Row, KV>(m: Transformer<Row, KV>, chunk: seq<int>): (r: seq<Row>)
    ensures |r| == |chunk|
  {
    seq(|chunk|, i requires 0 <= i < |chunk| => (m.embed)(chunk[i]))
  }

  lemma EmbeddedRows<Row, KV>(m: Transformer<Row, KV>, seen: seq<int>, chunk: seq<int>)
    ensures Embedded(m, chunk) == ChunkRows(m, 0, seen, chunk)
  {
    forall i | 0 <= i < |chunk|
      ensures Embedded(m, chunk)[i] == ChunkRows(m, 0, seen, chunk)[i]
    {
      assert (seen + chunk)[|seen| + i] == chunk[i];
      assert RowAt(m, 0, seen + chunk, |seen| + i) == (m.embed)((seen + chunk)[|seen| + i]);
      assert Embedded(m, chunk)[i] == (m.embed)(chunk[i]);
    }
  }

  /** The cache of layers start to start + n - 1 is the one an uncached run over these tokens would fill. */
  ghost predicate CacheOf<Row, KV>(m: Transformer<Row, KV>, start: nat, n: nat, tokens: seq<int>, c: Cache<KV>) {
    forall k: nat :: k < n ==> Slot(c, k) == KeysAt(m, start + k, tokens, |tokens|)
  }

  lemma LayerOverChunk<Row, KV>(m: Transformer<Row, KV>, layer: nat, seen: seq<int>, chunk: seq<int>)
    ensures KeysAt(m, layer, seen, |seen|) + NewKeys(m, layer, ChunkRows(m, layer, seen, chunk), |seen|)
         == KeysAt(m, layer, seen + chunk, |seen + chunk|)
    ensures Attended(m, layer, ChunkRows(m, layer, seen, chunk), |seen|, KeysAt(m, layer, seen + chunk, |seen + chunk|))
         == ChunkRows(m, layer + 1, seen, chunk)
  {
    hide RowAt;
    EarlierKeys(m, layer, seen, chunk, |seen|);
    var keys := KeysAt(m, layer, seen + chunk, |seen + chunk|);
    forall i | 0 <= i < |chunk|
      ensures Attended(m, layer, ChunkRows(m, layer, seen, chunk), |seen|, keys)[i] == ChunkRows(m, layer + 1, seen, chunk)[i]
    {
      assert keys[..|seen| + i + 1] == KeysAt(m, layer, seen + chunk, |seen| + i + 1);
      NextRow(m, layer, seen + chunk, |seen| + i);
    }
  }

  lemma NextRow<Row, KV>(m: Transformer<Row, KV>, layer: nat, tokens: seq<int>, i: nat)
    requires i < |tokens|
    ensures RowAt(m, layer + 1, tokens, i)
         == (m.attend)(layer, RowAt(m, layer, tokens, i), i, KeysAt(m, layer, tokens, i + 1))
  {
  }

  /** A stage with the right cache turns the right rows into the right rows and leaves the right cache. */
  lemma {:induction false} StageForwardIsRight<Row, KV>(
      m: Transformer<Row, KV>, start: nat, n: nat, width: nat, seen: seq<int>, chunk: seq<int>, c: Cache<KV>)
    requires n <= width && CacheOf(m, start, width, seen, c)
    ensures var (h, d) := StageForward(m, start, n, ChunkRows(m, start, seen, chunk), |seen|, c);
      && h == ChunkRows(m, start + n, seen, chunk)
      && CacheOf(m, start, n, seen + chunk, d)
      && forall k: nat :: n <= k < width ==> Slot(d, k) == KeysAt(m, start + k, seen, |seen|)
  {
    hide RowAt, KeysAt, ChunkRows, NewKeys, Attended, Slot, WithSlot;
    if n > 0 {
      StageForwardIsRight(m, start, n - 1, width, seen, chunk, c);
      LayerOverChunk(m, start + n - 1, seen, chunk);
    }
  }

  /** An empty cache is the right one for a request of which nothing has been seen. */
  lemma EmptyCacheIsFresh<Row, KV>(m: Transformer<Row, KV>, start: nat, n: nat)
    ensures CacheOf(m, start, n, [], [])
  {
  }

  /** The cache's length is the number of tokens fed so far. */
  lemma CacheLength<Row, KV>(m: Transformer<Row, KV>, start: nat, n: nat, tokens: seq<int>, c: Cache<KV>)
    requires n > 0 && CacheOf(m, start, n, tokens, c)
    ensures SeqLength(c) == |tokens|
  {
    assert Slot(c, 0) == KeysAt(m, start, tokens, |tokens|);
  }

  // ---------------------------------------------------------------- the whole model with one cache

  /** The greedy loop of one machine: a prefill over the prompt, then one token at a time, all through one cache. */
  method Monolithic<Row(!new), KV(!new)>(m: Transformer<Row, KV>, tokens: seq<int>, maxTokens: int) returns (out: seq<int>, positions: nat)
    requires tokens != [] && m.numLayers > 0
    ensures out == Greedy(m, tokens, if maxTokens > 1 then maxTokens else 1)
    ensures positions == |tokens| + |out| - 1
  {
    hide RowAt, KeysAt, StageForward, CacheOf, ChunkRows, Slot;
    EmptyCacheIsFresh(m, 0, m.numLayers);
    var cache: Cache<KV>, token := [], 0;
    cache, token := Step(m, [], tokens, cache);
    out := [token];
    assert [] + tokens == tokens && tokens + Greedy(m, tokens, 0) == tokens && tokens + out[..0] == tokens;
    var steps := 1;
    while steps < maxTokens
      invariant 1 <= steps && (steps <= maxTokens || steps == 1)
      invariant out == Greedy(m, tokens, steps)
      invariant CacheOf(m, 0, m.numLayers, tokens + out[..steps - 1], cache)
    {
      var seen := tokens + out[..steps - 1];
      assert seen + [out[steps - 1]] == tokens + out;
      cache, token := Step(m, seen, [out[steps - 1]], cache);
      assert Greedy(m, tokens, steps + 1) == out + [token];
      out := out + [token];
      steps := steps + 1;
      assert tokens + out[..steps - 1] == seen + [out[steps - 2]];
    }
    CacheLength(m, 0, m.numLayers, tokens + out[..steps - 1], cache);
    positions := SeqLength(cache);
  }

  /** One call of the whole model on a chunk, with the cache of what it has seen. */
  method Step<Row(!new), KV(!new)>(m: Transformer<Row, KV>, ghost seen: seq<int>, chunk: seq<int>, cache: Cache<KV>)
    returns (grown: Cache<KV>, token: int)
    requires chunk != [] && m.numLayers > 0 && CacheOf(m, 0, m.numLayers, seen, cache)
    ensures CacheOf(m, 0, m.numLayers, seen + chunk, grown)
    ensures token == NextToken(m, seen + chunk)
  {
    hide StageForward, CacheOf, SeqLength, Slot, KeysAt, Embedded;
    var embedded := Embedded(m, chunk);
    EmbeddedRows(m, seen, chunk);
    CacheLength(m, 0, m.numLayers, seen, cache);
    StageForwardIsRight(m, 0, m.numLayers, m.numLayers, seen, chunk, cache);
    var (rows, after) := StageForward(m, 0, m.numLayers, embedded, SeqLength(cache), cache);
    grown := after;
    token := (m.head)(rows[|chunk| - 1]);
  }
}
