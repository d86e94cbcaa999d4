/** The in-memory KV block store (backends/mock_storage.py). Locations are strings such as "n1:gpu". */
module KvStore {
  import opened Decimals
  import opened Types

  type Location = string

  datatype KVBlock = KVBlock(
    hash: int, byteSize: nat, layerRange: Option<LayerRange>, data: Option<string>,
    reuseCount: int, prefillTimeMs: real)

  datatype StoreError = BlockNotFound(hash: int) | NotAtSource(hash: int, source: Location)

  /** The two fields of the store: block hash -> location -> block, and the order in which hashes arrived. */
  datatype Store = Store(blocks: map<int, map<Location, KVBlock>>, order: seq<int>)

  predicate Holds(s: Store, hash: int, at: Location) {
    hash in s.blocks && at in s.blocks[hash]
  }

  ghost predicate NoRepeats(s: seq<int>) {
    forall i, j :: 0 <= i < j < |s| ==> s[i] != s[j]
  }

  /** The order lists each stored hash once; no hash is kept without a copy; copies sit under their own hash. */
  ghost predicate StoreOk(s: Store) {
    && NoRepeats(s.order)
    && (forall h :: h in s.order <==> h in s.blocks)
    && (forall h :: h in s.blocks ==> s.blocks[h] != map[])
    && (forall h, l :: h in s.blocks && l in s.blocks[h] ==> s.blocks[h][l].hash == h)
  }

  /** All copies of one block cover the same layers (the hash is computed from them). */
  ghost predicate Coherent(s: Store) {
    forall h, l, k :: h in s.blocks && l in s.blocks[h] && k in s.blocks[h]
      ==> s.blocks[h][l].layerRange == s.blocks[h][k].layerRange
  }

  // ---------------------------------------------------------------- operations on values

  function WithData(b: KVBlock): KVBlock {
    if b.data.None? then b.(data := Some("mock-kv:" + Decimal(b.hash))) else b
  }

  function CopiesOf(s: Store, hash: int): map<Location, KVBlock> {
    if hash in s.blocks then s.blocks[hash] else map[]
  }

  function Saved(s: Store, b: KVBlock, at: Location): Store {
    Store(s.blocks[b.hash := CopiesOf(s, b.hash)[at := WithData(b)]],
          if b.hash in s.order then s.order else s.order + [b.hash])
  }

  function Moved(s: Store, hash: int, src: Location, dst: Location): Result<Store, StoreError> {
    if hash !in s.blocks then Failure(BlockNotFound(hash))
    else if src !in s.blocks[hash] then Failure(NotAtSource(hash, src))
    else
      var copies := s.blocks[hash][dst := s.blocks[hash][src]];
      Success(s.(blocks := s.blocks[hash := if src != dst then copies - {src} else copies]))
  }

  function WithoutFirst(s: seq<int>, x: int): seq<int> {
    if s == [] then [] else if s[0] == x then s[1..] else [s[0]] + WithoutFirst(s[1..], x)
  }

  function EvictedAll(s: Store, hash: int): Store {
    Store(s.blocks - {hash}, WithoutFirst(s.order, hash))
  }

  function Evicted(s: Store, hash: int, at: Location): Store {
    if at == "*" || CopiesOf(s, hash) - {at} == map[] then EvictedAll(s, hash)
    else s.(blocks := s.blocks[hash := s.blocks[hash] - {at}])
  }

  lemma {:induction false} WithoutFirstMembers(s: seq<int>, x: int)
    requires NoRepeats(s)
    ensures NoRepeats(WithoutFirst(s, x))
    ensures forall y :: y in WithoutFirst(s, x) <==> y in s && y != x
  {
    if s != [] {
      WithoutFirstMembers(s[1..], x);
      assert s == [s[0]] + s[1..];
      assert s[0] !in s[1..];
    }
  }

  /** Every operation keeps the store well-formed. */
  lemma OperationsKeepStoreOk(s: Store, b: KVBlock, hash: int, src: Location, dst: Location)
    requires StoreOk(s)
    ensures StoreOk(Saved(s, b, dst))
    ensures Moved(s, hash, src, dst).Success? ==> StoreOk(Moved(s, hash, src, dst).value)
    ensures StoreOk(Evicted(s, hash, src))
  {
    hide StoreOk, Saved, Moved, Evicted;
    SaveKeepsStoreOk(s, b, dst);
    MoveKeepsStoreOk(s, hash, src, dst);
    EvictKeepsStoreOk(s, hash, src);
  }

  lemma MoveKeepsStoreOk(s: Store, hash: int, src: Location, dst: Location)
    requires StoreOk(s)
    ensures Moved(s, hash, src, dst).Success? ==> StoreOk(Moved(s, hash, src, dst).value)
  {
    hide NoRepeats;
    if hash in s.blocks && src in s.blocks[hash] {
      var t := Moved(s, hash, src, dst).value;
      assert dst in t.blocks[hash];
    }
  }

  lemma EvictKeepsStoreOk(s: Store, hash: int, at: Location)
    requires StoreOk(s)
    ensures StoreOk(Evicted(s, hash, at))
  {
    hide NoRepeats;
    if at == "*" || CopiesOf(s, hash) - {at} == map[] {
      WithoutFirstMembers(s.order, hash);
    }
  }

  lemma SaveKeepsStoreOk(s: Store, b: KVBlock, at: Location)
    requires StoreOk(s)
    ensures StoreOk(Saved(s, b, at))
  {
    var t := Saved(s, b, at);
    assert at in t.blocks[b.hash];
    forall i, j | 0 <= i < j < |t.order|
      ensures t.order[i] != t.order[j]
    {
      assert i < |s.order| && t.order[i] in s.order;
    }
  }

  /** What saving a block does, copy by copy: it is held there afterwards, with its data or a placeholder, every other copy
      is as it was, and hashes keep their order of arrival. */
  lemma SaveEffect(s: Store, b: KVBlock, at: Location)
    requires StoreOk(s)
    ensures var t := Saved(s, b, at);
      && (forall h, l :: Holds(t, h, l) <==> Holds(s, h, l) || (h == b.hash && l == at))
      && (forall h, l :: Holds(s, h, l) && !(h == b.hash && l == at) ==> t.blocks[h][l] == s.blocks[h][l])
      && Holds(t, b.hash, at) && t.blocks[b.hash][at].(data := b.data) == b
      && t.blocks[b.hash][at].data == (if b.data.Some? then b.data else Some("mock-kv:" + Decimal(b.hash)))
      && t.order == s.order + if b.hash in s.blocks then [] else [b.hash]
  {
    hide NoRepeats;
  }

  /** What moving does: a copy that is there goes from its place to the other one, and nothing else changes. */
  lemma MoveEffect(s: Store, hash: int, src: Location, dst: Location)
    ensures var r := Moved(s, hash, src, dst);
      && (r.Success? <==> Holds(s, hash, src))
      && (r.Failure? ==> if hash in s.blocks then r.error == NotAtSource(hash, src) else r.error == BlockNotFound(hash))
      && (r.Success? ==>
        && (forall h, l :: Holds(r.value, h, l) <==>
             (h == hash && l == dst) || (Holds(s, h, l) && !(h == hash && l == src)))
        && Holds(r.value, hash, dst) && r.value.blocks[hash][dst] == s.blocks[hash][src]
        && (forall h, l :: Holds(s, h, l) && !(h == hash && (l == src || l == dst)) ==> r.value.blocks[h][l] == s.blocks[h][l])
        && r.value.order == s.order)
  {
  }

  /** What evicting does: one copy goes, or all of them, and a hash without copies loses its place in the order. */
  lemma EvictEffect(s: Store, hash: int, at: Location)
    requires StoreOk(s)
    ensures var t := Evicted(s, hash, at);
      && (forall h, l :: Holds(t, h, l) <==> Holds(s, h, l) && !(h == hash && (at == "*" || l == at)))
      && (forall h, l :: Holds(t, h, l) ==> t.blocks[h][l] == s.blocks[h][l])
      && t.order == if hash in t.blocks then s.order else WithoutFirst(s.order, hash)
  {
    hide NoRepeats, WithoutFirst;
    if hash in s.blocks && at != "*" && s.blocks[hash] - {at} == map[] {
      assert forall l :: l in s.blocks[hash] && l != at ==> l in s.blocks[hash] - {at};
    }
  }

  /** Taking an element out of the order leaves the others in theirs. */
  lemma {:induction false} WithoutFirstSplits(s: seq<int>, x: int) returns (i: nat)
    requires x in s
    ensures i < |s| && s[i] == x && WithoutFirst(s, x) == s[..i] + s[i + 1..]
  {
    if s[0] == x {
      i := 0;
      assert s[..0] + s[1..] == s[1..];
    } else {
      var k := WithoutFirstSplits(s[1..], x);
      i := k + 1;
      assert [s[0]] + (s[1..][..k] + s[1..][k + 1..]) == s[..i] + s[i + 1..];
    }
  }

  // ---------------------------------------------------------------- the store

  class MockKVStore {
    var blocks: map<int, map<Location, KVBlock>>
    var prefixOrder: seq<int>

    constructor ()
      ensures Contents() == Store(map[], [])
      ensures StoreOk(Contents())
    {
      blocks := map[];
      prefixOrder := [];
    }

    function Contents(): Store
      reads this
    {
      Store(blocks, prefixOrder)
    }

    method Save(b: KVBlock, at: Location)
      modifies this
      ensures Contents() == Saved(old(Contents()), b, at)
    {
      var copies := if b.hash in blocks then blocks[b.hash] else map[];
      blocks := blocks[b.hash := copies[at := WithData(b)]];
      if b.hash !in prefixOrder {
        prefixOrder := prefixOrder + [b.hash];
      }
    }

    method Load(hash: int, at: Location) returns (b: Option<KVBlock>)
      ensures b.Some? <==> Holds(Contents(), hash, at)
      ensures b.Some? ==> b.value == blocks[hash][at]
    {
      if hash in blocks && at in blocks[hash] {
        return Some(blocks[hash][at]);
      }
      return None;
    }

    /** How many of the leading hashes are held somewhere in the given locations (anywhere, when none are given). */
    method Lookup(prefix: seq<int>, locations: Option<seq<Location>>) returns (hit: nat)
      ensures hit <= |prefix|
      ensures forall i :: 0 <= i < hit ==> HeldIn(Contents(), prefix[i], locations)
      ensures hit < |prefix| ==> !HeldIn(Contents(), prefix[hit], locations)
      ensures StoreOk(Contents()) ==> forall i :: 0 <= i <= hit < |prefix| ==>
        (i < hit <==> HeldSomewhere(Contents(), prefix[i], locations))
    {
      HeldInMeans(Contents(), locations);
      hit := 0;
      while hit < |prefix|
        invariant hit <= |prefix|
        invariant forall i :: 0 <= i < hit ==> HeldIn(Contents(), prefix[i], locations)
      {
        if !HeldIn(Contents(), prefix[hit], locations) {
          break;
        }
        hit := hit + 1;
      }
    }

    method Move(hash: int, src: Location, dst: Location) returns (r: Result<(), StoreError>)
      modifies this
      ensures match Moved(old(Contents()), hash, src, dst)
        case Success(s) => r.Success? && Contents() == s
        case Failure(e) => r == Failure(e) && Contents() == old(Contents())
    {
      if hash !in blocks {
        return Failure(BlockNotFound(hash));
      }
      var copies := blocks[hash];
      if src !in copies {
        return Failure(NotAtSource(hash, src));
      }
      copies := copies[dst := copies[src]];
      if src != dst {
        copies := copies - {src};
      }
      blocks := blocks[hash := copies];
      return Success(());
    }

    method Evict(hash: int, at: Location)
      requires StoreOk(Contents())
      modifies this
      ensures Contents() == Evicted(old(Contents()), hash, at)
      ensures StoreOk(Contents())
    {
      hide StoreOk;
      EvictKeepsStoreOk(Contents(), hash, at);
      EvictedContents(Contents(), hash, at);
      if at == "*" {
        blocks := blocks - {hash};
        if hash in prefixOrder {
          prefixOrder := WithoutFirst(prefixOrder, hash);
        }
        return;
      }
      if hash in blocks {
        blocks := blocks[hash := blocks[hash] - {at}];
      }
      if hash !in blocks || blocks[hash] == map[] {
        blocks := blocks - {hash};
        if hash in prefixOrder {
          prefixOrder := WithoutFirst(prefixOrder, hash);
        }
      }
    }

    /** Each hash with its locations. The order within a list is left open: what is proved holds for every order. */
    method GetIndex() returns (index: map<int, seq<Location>>)
      requires StoreOk(Contents())
      ensures IndexOf(index, Contents())
    {
      index := map[];
      for i := 0 to |prefixOrder|
        invariant forall h :: h in index <==> h in prefixOrder[..i]
        invariant forall h :: h in index ==> h in blocks && Lists(index[h], blocks[h].Keys)
      {
        var h := prefixOrder[i];
        assert h in blocks;
        var listing := ListOf(blocks[h].Keys);
        index := index[h := listing];
        assert prefixOrder[..i + 1] == prefixOrder[..i] + [h];
      }
      assert prefixOrder[..|prefixOrder|] == prefixOrder;
    }
  }

  /** The two ways an eviction can end, and when a hash is not there to be removed. */
  lemma EvictedContents(s: Store, hash: int, at: Location)
    requires StoreOk(s)
    ensures EvictedAll(s, hash) == Store(s.blocks - {hash}, if hash in s.order then WithoutFirst(s.order, hash) else s.order)
    ensures hash !in s.blocks ==> Evicted(s, hash, at) == EvictedAll(s, hash)
    ensures hash in s.blocks && at != "*" ==>
      Evicted(s, hash, at) == if s.blocks[hash] - {at} == map[] then EvictedAll(s, hash)
                              else Store(s.blocks[hash := s.blocks[hash] - {at}], s.order)
    ensures hash in s.blocks ==> s.blocks[hash := s.blocks[hash] - {at}] - {hash} == s.blocks - {hash}
  {
    AbsentUnchanged(s.order, hash);
  }

  predicate HeldIn(s: Store, hash: int, locations: Option<seq<Location>>) {
    && hash in s.blocks
    && (locations.None? || exists i :: 0 <= i < |locations.value| && locations.value[i] in s.blocks[hash])
  }

  /** There is a copy, and in one of the locations if any are given. */
  ghost predicate HeldSomewhere(s: Store, hash: int, locations: Option<seq<Location>>) {
    exists l :: Holds(s, hash, l) && (locations.Some? ==> l in locations.value)
  }

  lemma HeldInMeans(s: Store, locations: Option<seq<Location>>)
    ensures StoreOk(s) ==> forall h :: HeldIn(s, h, locations) <==> HeldSomewhere(s, h, locations)
  {
    if StoreOk(s) {
      forall h
        ensures HeldIn(s, h, locations) <==> HeldSomewhere(s, h, locations)
      {
        if HeldIn(s, h, locations) {
          var l :| l in s.blocks[h] && (locations.Some? ==> l in locations.value);
          assert Holds(s, h, l);
        }
      }
    }
  }

  lemma {:induction false} AbsentUnchanged(s: seq<int>, x: int)
    ensures x !in s ==> WithoutFirst(s, x) == s
  {
    if s != [] {
      AbsentUnchanged(s[1..], x);
    }
  }

  /** A listing without repetition of exactly the elements of a set. */
  ghost predicate Lists(s: seq<Location>, elements: set<Location>) {
    && (forall x :: x in s <==> x in elements)
    && (forall i, j :: 0 <= i < j < |s| ==> s[i] != s[j])
  }

  ghost predicate IndexOf(index: map<int, seq<Location>>, s: Store) {
    && (forall h :: h in index <==> h in s.blocks)
    && forall h :: h in index ==> Lists(index[h], s.blocks[h].Keys)
  }

  method ListOf(elements: set<Location>) returns (s: seq<Location>)
    ensures Lists(s, elements)
  {
    s := [];
    var todo := elements;
    while todo != {}
      invariant todo <= elements
      invariant Lists(s, elements - todo)
      decreases todo
    {
      var x :| x in todo;
      todo := todo - {x};
      s := s + [x];
    }
  }
}
