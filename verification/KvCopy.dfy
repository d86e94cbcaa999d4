/** Copying KV blocks to the nodes that own their layers under a new plan
    (core/pipeline_controller.py, _copy_reusable_kv and _owner_for_range). */
module KvCopy {
  import opened Types
  import opened Coverage
  import opened KvStore

  datatype TransferRecord = TransferRecord(hash: int, layerRange: LayerRange, source: Location, destination: Location)

  // ---------------------------------------------------------------- who owns a range

  predicate Encloses(p: Placement, r: LayerRange) {
    p.layerRange.Some? && p.layerRange.value.start <= r.start && r.end <= p.layerRange.value.end
  }

  function OwnerForRange(r: LayerRange, ps: seq<Placement>): (owner: Option<Placement>)
    ensures owner.Some? <==> exists p :: p in ps && Encloses(p, r)
    ensures owner.Some? ==> owner.value in ps && Encloses(owner.value, r)
  {
    if ps == [] then None
    else if Encloses(ps[0], r) then Some(ps[0])
    else
      assert ps == [ps[0]] + ps[1..];
      OwnerForRange(r, ps[1..])
  }

  /** Under a valid plan at most one placement can enclose a non-empty range, so the search order does not matter. */
  lemma OwnerIsUnique(r: LayerRange, ps: seq<Placement>, numLayers: int, p: Placement)
    requires Tiles(ps, numLayers) && r.start < r.end
    requires p in ps && Encloses(p, r)
    ensures OwnerForRange(r, ps) == Some(p)
  {
    var q := OwnerForRange(r, ps).value;
    assert Owns(p, r.start) && Owns(q, r.start);
  }

  /** The placement owns every layer of the range. */
  ghost predicate OwnsAll(p: Placement, r: LayerRange) {
    forall k :: r.start <= k < r.end ==> Owns(p, k)
  }

  /** An owner of a non-empty range is a placement that owns every layer of it, and there is one exactly when some placement
      does. */
  lemma OwnerOwnsEveryLayer(r: LayerRange, ps: seq<Placement>)
    requires r.start < r.end
    ensures var owner := OwnerForRange(r, ps);
      && (owner.Some? <==> exists p :: p in ps && OwnsAll(p, r))
      && (owner.Some? ==> owner.value in ps && OwnsAll(owner.value, r))
  {
    forall p | p in ps
      ensures Encloses(p, r) <==> OwnsAll(p, r)
    {
      if OwnsAll(p, r) {
        assert Owns(p, r.start) && Owns(p, r.end - 1);
      }
    }
  }

  function GpuOf(n: NodeId): Location {
    n + ":gpu"
  }

  // ---------------------------------------------------------------- what happens to one block

  /** Where a copy should go: the owner's accelerator, unless that is where it already is. */
  function Destination(b: KVBlock, at: Location, ps: seq<Placement>): Option<Location> {
    if b.layerRange.None? then None
    else
      var owner := OwnerForRange(b.layerRange.value, ps);
      if owner.None? || GpuOf(owner.value.nodeId) == at then None
      else Some(GpuOf(owner.value.nodeId))
  }

  /** The first listed copy that has somewhere to go. */
  function FirstMover(copies: map<Location, KVBlock>, locs: seq<Location>, ps: seq<Placement>): (i: nat)
    ensures i <= |locs|
    ensures i < |locs| ==> locs[i] in copies && Destination(copies[locs[i]], locs[i], ps).Some?
    ensures forall k :: 0 <= k < i && locs[k] in copies ==> Destination(copies[locs[k]], locs[k], ps).None?
  {
    if locs == [] then 0
    else if locs[0] in copies && Destination(copies[locs[0]], locs[0], ps).Some? then 0
    else
      assert forall k :: 1 <= k < |locs| ==> locs[k] == locs[1..][k - 1];
      1 + FirstMover(copies, locs[1..], ps)
  }

  /** The copies of one block after its turn: at most one is added. */
  function AfterCopy(copies: map<Location, KVBlock>, locs: seq<Location>, ps: seq<Placement>): map<Location, KVBlock> {
    var i := FirstMover(copies, locs, ps);
    if i == |locs| then copies
    else copies[Destination(copies[locs[i]], locs[i], ps).value := WithData(copies[locs[i]])]
  }

  /** The store after copying, block by block, for a given listing of the locations. */
  ghost predicate Copied(s: Store, t: Store, index: map<int, seq<Location>>, ps: seq<Placement>) {
    && t.order == s.order
    && (forall h :: h in t.blocks <==> h in s.blocks)
    && forall h :: h in s.blocks ==> h in index && t.blocks[h] == AfterCopy(s.blocks[h], index[h], ps)
  }

  // ---------------------------------------------------------------- properties of a whole run

  ghost predicate OneRange(copies: map<Location, KVBlock>) {
    forall l, k :: l in copies && k in copies ==> copies[l].layerRange == copies[k].layerRange
  }

  lemma AfterCopyKeeps(copies: map<Location, KVBlock>, locs: seq<Location>, ps: seq<Placement>, h: int)
    requires copies != map[] && forall l :: l in copies ==> copies[l].hash == h
    ensures var after := AfterCopy(copies, locs, ps);
      && after != map[]
      && (forall l :: l in copies ==> l in after)
      && (forall l :: l in after ==> after[l].hash == h)
      && (OneRange(copies) ==> OneRange(after) && forall l, k :: l in copies && k in after ==> after[k].layerRange == copies[l].layerRange)
  {
    hide Destination, FirstMover, OneRange;
    var i := FirstMover(copies, locs, ps);
    if i < |locs| {
      OneMoreCopy(copies, locs[i], Destination(copies[locs[i]], locs[i], ps).value, h);
    } else {
      OneRangeThroughout(copies);
    }
  }

  lemma OneMoreCopy(copies: map<Location, KVBlock>, src: Location, dst: Location, h: int)
    requires src in copies && forall l :: l in copies ==> copies[l].hash == h
    ensures var after := copies[dst := WithData(copies[src])];
      && after != map[]
      && (forall l :: l in copies ==> l in after)
      && (forall l :: l in after ==> after[l].hash == h)
      && (OneRange(copies) ==> OneRange(after) && forall l, k :: l in copies && k in after ==> after[k].layerRange == copies[l].layerRange)
  {
    var after := copies[dst := WithData(copies[src])];
    assert dst in after;
    if OneRange(copies) {
      assert forall k :: k in after ==> after[k].layerRange == copies[src].layerRange;
    }
  }

  lemma OneRangeThroughout(copies: map<Location, KVBlock>)
    ensures OneRange(copies) ==> forall l, k :: l in copies && k in copies ==> copies[k].layerRange == copies[l].layerRange
  {
  }

  /** Nothing that was held is lost. */
  lemma CopyIsMonotone(s: Store, t: Store, index: map<int, seq<Location>>, ps: seq<Placement>)
    requires StoreOk(s) && IndexOf(index, s) && Copied(s, t, index, ps)
    ensures StoreOk(t)
    ensures forall h, l :: Holds(s, h, l) ==> Holds(t, h, l)
    ensures Coherent(s) ==> Coherent(t)
  {
    hide AfterCopy, NoRepeats, Lists;
    forall h | h in s.blocks
      ensures t.blocks[h] != map[]
      ensures forall l :: l in s.blocks[h] ==> l in t.blocks[h]
      ensures forall l :: l in t.blocks[h] ==> t.blocks[h][l].hash == h
      ensures OneRange(s.blocks[h]) ==> OneRange(t.blocks[h])
    {
      AfterCopyKeeps(s.blocks[h], index[h], ps, h);
    }
    if Coherent(s) {
      CoherentBlocks(s);
      CoherentBlocks(t);
    }
  }

  lemma CoherentBlocks(s: Store)
    ensures Coherent(s) <==> forall h :: h in s.blocks ==> OneRange(s.blocks[h])
  {
  }

  /** A held block whose layers lie inside one placement ends up on that placement's accelerator. */
  lemma CopyIsComplete(s: Store, t: Store, index: map<int, seq<Location>>, ps: seq<Placement>, h: int, l: Location)
    requires StoreOk(s) && Coherent(s) && IndexOf(index, s) && Copied(s, t, index, ps)
    requires Holds(s, h, l) && s.blocks[h][l].layerRange.Some?
    requires OwnerForRange(s.blocks[h][l].layerRange.value, ps).Some?
    ensures Holds(t, h, GpuOf(OwnerForRange(s.blocks[h][l].layerRange.value, ps).value.nodeId))
  {
    var copies := s.blocks[h];
    var owner := GpuOf(OwnerForRange(copies[l].layerRange.value, ps).value.nodeId);
    var i := FirstMover(copies, index[h], ps);
    assert l in index[h];
    if i == |index[h]| {
      var k :| 0 <= k < |index[h]| && index[h][k] == l;
      assert Destination(copies[l], l, ps).None?;
      assert l == owner;
    } else {
      assert copies[index[h][i]].layerRange == copies[l].layerRange;
    }
  }

  /** Copying again under the same plan adds no location, whatever order the second listing uses. */
  lemma CopyIsIdempotent(s: Store, t: Store, u: Store, index: map<int, seq<Location>>, index': map<int, seq<Location>>,
                         ps: seq<Placement>)
    requires StoreOk(s) && Coherent(s) && IndexOf(index, s) && Copied(s, t, index, ps)
    requires IndexOf(index', t) && Copied(t, u, index', ps)
    ensures forall h, l :: Holds(u, h, l) <==> Holds(t, h, l)
  {
    CopyIsMonotone(s, t, index, ps);
    CopyIsMonotone(t, u, index', ps);
    forall h, l | Holds(u, h, l)
      ensures Holds(t, h, l)
    {
      var i := FirstMover(t.blocks[h], index'[h], ps);
      if i < |index'[h]| {
        DestinationAlreadyHeld(s, t, index, ps, h, index'[h][i]);
      }
    }
  }

  /** After one run the place any copy of a block should go to already has one. */
  lemma DestinationAlreadyHeld(s: Store, t: Store, index: map<int, seq<Location>>, ps: seq<Placement>, h: int, from: Location)
    requires StoreOk(s) && Coherent(s) && IndexOf(index, s) && Copied(s, t, index, ps)
    requires Holds(t, h, from) && Destination(t.blocks[h][from], from, ps).Some?
    ensures Holds(t, h, Destination(t.blocks[h][from], from, ps).value)
  {
    hide AfterCopy, NoRepeats, Lists, OwnerForRange;
    CoherentBlocks(s);
    AfterCopyKeeps(s.blocks[h], index[h], ps, h);
    var k :| k in s.blocks[h];
    assert Holds(s, h, k);
    assert t.blocks[h][from].layerRange == s.blocks[h][k].layerRange;
    CopyIsComplete(s, t, index, ps, h, k);
  }

  // ---------------------------------------------------------------- in terms of layers

  /** No layer has two owners. */
  ghost predicate NoOverlap(ps: seq<Placement>) {
    forall p, q, k :: p in ps && q in ps && Owns(p, k) && Owns(q, k) ==> p == q
  }

  lemma TilesDoNotOverlap(ps: seq<Placement>, numLayers: int)
    requires Tiles(ps, numLayers)
    ensures NoOverlap(ps)
  {
  }

  /** Blocks that name layers name at least one. */
  ghost predicate RangesProper(s: Store) {
    forall h, l :: Holds(s, h, l) && s.blocks[h][l].layerRange.Some? ==>
      s.blocks[h][l].layerRange.value.start < s.blocks[h][l].layerRange.value.end
  }

  /** This is the accelerator of a node that owns all layers of the block. */
  ghost predicate IsHome(b: KVBlock, ps: seq<Placement>, at: Location) {
    b.layerRange.Some? && exists p :: p in ps && OwnsAll(p, b.layerRange.value) && at == p.nodeId + ":gpu"
  }

  ghost predicate HasHome(s: Store, ps: seq<Placement>, h: int, at: Location) {
    exists l :: Holds(s, h, l) && IsHome(s.blocks[h][l], ps, at)
  }

  /** A copy away from the block's home. */
  ghost predicate Away(s: Store, ps: seq<Placement>, h: int, l: Location) {
    Holds(s, h, l) && exists at :: IsHome(s.blocks[h][l], ps, at) && at != l
  }

  lemma DestinationIsHome(b: KVBlock, at: Location, ps: seq<Placement>, to: Location)
    requires NoOverlap(ps) && (b.layerRange.Some? ==> b.layerRange.value.start < b.layerRange.value.end)
    ensures Destination(b, at, ps) == Some(to) <==> IsHome(b, ps, to) && to != at
  {
    if b.layerRange.Some? {
      var r := b.layerRange.value;
      OwnerOwnsEveryLayer(r, ps);
      if IsHome(b, ps, to) {
        var p :| p in ps && OwnsAll(p, r) && to == p.nodeId + ":gpu";
        assert Owns(p, r.start) && Owns(OwnerForRange(r, ps).value, r.start);
      }
    }
  }

  /** What copying comes to: a block is where it was, and at its home if it has one; a record exists exactly for the blocks
      that had a copy away from home, and says from where and to where. A block whose layers lie in two placements has none. */
  ghost predicate FollowsLayers(s: Store, t: Store, copies: seq<TransferRecord>, ps: seq<Placement>) {
    && (forall h, l :: Holds(t, h, l) <==> Holds(s, h, l) || HasHome(s, ps, h, l))
    && (forall h :: Recorded(copies, h) <==> exists l :: Away(s, ps, h, l))
    && (forall i :: 0 <= i < |copies| ==> TruthfulRecord(s, copies[i], ps))
  }

  ghost predicate TruthfulRecord(s: Store, r: TransferRecord, ps: seq<Placement>) {
    && Holds(s, r.hash, r.source) && s.blocks[r.hash][r.source].layerRange == Some(r.layerRange)
    && IsHome(s.blocks[r.hash][r.source], ps, r.destination) && r.destination != r.source
  }

  lemma CopiedLocations(s: Store, t: Store, index: map<int, seq<Location>>, ps: seq<Placement>, h: int, l: Location)
    requires StoreOk(s) && Coherent(s) && RangesProper(s) && NoOverlap(ps) && IndexOf(index, s) && Copied(s, t, index, ps)
    ensures Holds(t, h, l) <==> Holds(s, h, l) || HasHome(s, ps, h, l)
  {
    hide Destination, NoOverlap, IsHome;
    if h in s.blocks {
      var copies, locs := s.blocks[h], index[h];
      assert Lists(locs, copies.Keys);
      forall k, to | k in copies
        ensures Destination(copies[k], k, ps) == Some(to) <==> IsHome(copies[k], ps, to) && to != k
      {
        assert Holds(s, h, k);
        DestinationIsHome(copies[k], k, ps, to);
      }
      var i := FirstMover(copies, locs, ps);
      forall k, to | k in copies && IsHome(copies[k], ps, to)
        ensures i < |locs| ==> IsHome(copies[locs[i]], ps, to)
      {
        SameHome(s, ps, h, k, if i < |locs| then locs[i] else k, to);
      }
      if HasHome(s, ps, h, l) && !Holds(s, h, l) {
        var k :| Holds(s, h, k) && IsHome(s.blocks[h][k], ps, l);
        assert k in locs;
        assert Destination(copies[k], k, ps) == Some(l);
      }
      if i < |locs| {
        var to := Destination(copies[locs[i]], locs[i], ps).value;
        assert Holds(s, h, locs[i]) && HasHome(s, ps, h, to);
        if HasHome(s, ps, h, l) {
          assert IsHome(copies[locs[i]], ps, l);
          HomeIsUnique(copies[locs[i]], ps, to, l);
        }
      }
    }
  }

  lemma SameHome(s: Store, ps: seq<Placement>, h: int, k: Location, l: Location, to: Location)
    requires Coherent(s) && Holds(s, h, k) && Holds(s, h, l)
    ensures IsHome(s.blocks[h][k], ps, to) <==> IsHome(s.blocks[h][l], ps, to)
  {
  }

  lemma HomeIsUnique(b: KVBlock, ps: seq<Placement>, x: Location, y: Location)
    requires NoOverlap(ps) && (b.layerRange.Some? ==> b.layerRange.value.start < b.layerRange.value.end)
    requires IsHome(b, ps, x) && IsHome(b, ps, y)
    ensures x == y
  {
    var p :| p in ps && OwnsAll(p, b.layerRange.value) && x == p.nodeId + ":gpu";
    var q :| q in ps && OwnsAll(q, b.layerRange.value) && y == q.nodeId + ":gpu";
    assert Owns(p, b.layerRange.value.start) && Owns(q, b.layerRange.value.start);
  }

  lemma CopiedRecords(s: Store, copies: seq<TransferRecord>, index: map<int, seq<Location>>, ps: seq<Placement>, h: int)
    requires StoreOk(s) && RangesProper(s) && NoOverlap(ps) && IndexOf(index, s)
    requires RecordsSoFar(s, copies, index, ps, s.order)
    ensures Recorded(copies, h) <==> exists l :: Away(s, ps, h, l)
    ensures forall i :: 0 <= i < |copies| ==> TruthfulRecord(s, copies[i], ps)
  {
    hide NoOverlap, IsHome, Destination;
    forall i | 0 <= i < |copies|
      ensures TruthfulRecord(s, copies[i], ps)
      ensures Away(s, ps, copies[i].hash, copies[i].source)
    {
      assert RecordTrue(s, copies[i], ps);
      DestinationIsHome(s.blocks[copies[i].hash][copies[i].source], copies[i].source, ps, copies[i].destination);
    }
    if exists l :: Away(s, ps, h, l) {
      var l :| Away(s, ps, h, l);
      var at :| IsHome(s.blocks[h][l], ps, at) && at != l;
      DestinationIsHome(s.blocks[h][l], l, ps, at);
      assert Lists(index[h], s.blocks[h].Keys) && l in index[h];
      assert HasMover(s, index, ps, h);
    }
  }

  /** For any store whose blocks name layers and agree on them, and any plan in which no layer has two owners. */
  lemma CopyFollowsLayers(s: Store, t: Store, copies: seq<TransferRecord>, index: map<int, seq<Location>>, ps: seq<Placement>)
    requires StoreOk(s) && Coherent(s) && RangesProper(s) && NoOverlap(ps) && IndexOf(index, s) && Copied(s, t, index, ps)
    requires RecordsSoFar(s, copies, index, ps, s.order)
    ensures FollowsLayers(s, t, copies, ps)
  {
    hide StoreOk, Coherent, RangesProper, NoOverlap, IndexOf, Copied, RecordsSoFar, HasHome, Away, TruthfulRecord, Holds, Recorded;
    forall h, l
      ensures Holds(t, h, l) <==> Holds(s, h, l) || HasHome(s, ps, h, l)
    {
      CopiedLocations(s, t, index, ps, h, l);
    }
    forall h
      ensures Recorded(copies, h) <==> exists l :: Away(s, ps, h, l)
    {
      CopiedRecords(s, copies, index, ps, h);
    }
    CopiedRecords(s, copies, index, ps, 0);
  }

  // ---------------------------------------------------------------- the procedure

  /** What one record says: a copy of the block was made from a held source to its owner. */
  ghost predicate RecordTrue(s: Store, r: TransferRecord, ps: seq<Placement>) {
    && Holds(s, r.hash, r.source)
    && s.blocks[r.hash][r.source].layerRange == Some(r.layerRange)
    && Destination(s.blocks[r.hash][r.source], r.source, ps) == Some(r.destination)
  }

  ghost predicate Recorded(copies: seq<TransferRecord>, h: int) {
    exists i :: 0 <= i < |copies| && copies[i].hash == h
  }

  lemma RecordedOneMore(copies: seq<TransferRecord>, r: TransferRecord)
    ensures Recorded(copies + [r], r.hash)
    ensures forall h :: Recorded(copies, h) ==> Recorded(copies + [r], h)
  {
    assert (copies + [r])[|copies|] == r;
    assert forall i :: 0 <= i < |copies| ==> (copies + [r])[i] == copies[i];
  }

  /** Half-way through the run: these hashes have had their turn. */
  ghost predicate CopiedSoFar(s: Store, t: Store, index: map<int, seq<Location>>, ps: seq<Placement>, done: seq<int>) {
    && t.order == s.order && t.blocks.Keys == s.blocks.Keys
    && forall h :: h in s.blocks ==>
      h in index && t.blocks[h] == if h in done then AfterCopy(s.blocks[h], index[h], ps) else s.blocks[h]
  }

  lemma OneMoreBlock(s: Store, t: Store, index: map<int, seq<Location>>, ps: seq<Placement>, done: seq<int>, h: int)
    requires CopiedSoFar(s, t, index, ps, done) && h in s.blocks && h !in done
    ensures h in index && h in t.blocks && t.blocks[h] == s.blocks[h] && t.order == s.order
    ensures CopiedSoFar(s, t.(blocks := t.blocks[h := AfterCopy(s.blocks[h], index[h], ps)]), index, ps, done + [h])
  {
    hide AfterCopy;
  }

  /** The records so far are true, one for each block that has had its turn and had somewhere to go. */
  ghost predicate RecordsSoFar(s: Store, copies: seq<TransferRecord>, index: map<int, seq<Location>>, ps: seq<Placement>, done: seq<int>) {
    && (forall i :: 0 <= i < |copies| ==> RecordTrue(s, copies[i], ps) && copies[i].hash in done)
    && (forall i, j :: 0 <= i < j < |copies| ==> copies[i].hash != copies[j].hash)
    && (forall h :: h in done && HasMover(s, index, ps, h) ==> Recorded(copies, h))
  }

  ghost predicate HasMover(s: Store, index: map<int, seq<Location>>, ps: seq<Placement>, h: int) {
    h in s.blocks && h in index && FirstMover(s.blocks[h], index[h], ps) < |index[h]|
  }

  lemma RecordsStep(s: Store, copies: seq<TransferRecord>, index: map<int, seq<Location>>, ps: seq<Placement>, done: seq<int>,
                    h: int, made: Option<TransferRecord>)
    requires RecordsSoFar(s, copies, index, ps, done) && h !in done
    requires made.Some? <==> HasMover(s, index, ps, h)
    requires made.Some? ==> made.value.hash == h && RecordTrue(s, made.value, ps)
    ensures RecordsSoFar(s, copies + if made.Some? then [made.value] else [], index, ps, done + [h])
  {
    hide RecordTrue, HasMover, Recorded;
    if made.Some? {
      RecordedOneMore(copies, made.value);
    } else {
      assert copies + [] == copies;
    }
  }

  /** _copy_reusable_kv: the store after copying, with one true record for each block that had somewhere to go. */
  method CopyReusableKv(storage: MockKVStore, ps: seq<Placement>)
    returns (copies: seq<TransferRecord>, ghost index: map<int, seq<Location>>)
    requires StoreOk(storage.Contents())
    modifies storage
    ensures IndexOf(index, old(storage.Contents()))
    ensures Copied(old(storage.Contents()), storage.Contents(), index, ps)
    ensures StoreOk(storage.Contents())
    ensures RecordsSoFar(old(storage.Contents()), copies, index, ps, old(storage.prefixOrder))
    ensures Coherent(old(storage.Contents())) && RangesProper(old(storage.Contents())) && NoOverlap(ps) ==>
      FollowsLayers(old(storage.Contents()), storage.Contents(), copies, ps)
  {
    hide AfterCopy, FirstMover, IndexOf, CopiedSoFar, RecordsSoFar, RecordTrue, Copied, Coherent, RangesProper, NoOverlap,
      FollowsLayers;
    ghost var s := storage.Contents();
    var listing := storage.GetIndex();
    index := listing;
    var hashes := storage.prefixOrder;
    copies := [];
    NothingCopied(s, index, ps);
    for n := 0 to |hashes|
      invariant CopiedSoFar(s, storage.Contents(), index, ps, hashes[..n])
      invariant RecordsSoFar(s, copies, index, ps, hashes[..n])
    {
      var h := hashes[n];
      TurnComesOnce(s, n);
      OneMoreBlock(s, storage.Contents(), index, ps, hashes[..n], h);
      assert hashes[..n + 1] == hashes[..n] + [h];
      ListedCopies(s, index, h);
      ghost var t := storage.Contents();
      var made := CopyBlock(storage, h, listing[h], ps);
      RecordOfBlock(s, t, made, ps, h);
      RecordsStep(s, copies, index, ps, hashes[..n], h, made);
      if made.Some? {
        copies := copies + [made.value];
      } else {
        assert copies + [] == copies;
      }
    }
    assert hashes[..|hashes|] == hashes;
    AllCopied(s, storage.Contents(), index, ps);
    CopyIsMonotone(s, storage.Contents(), index, ps);
    if Coherent(s) && RangesProper(s) && NoOverlap(ps) {
      CopyFollowsLayers(s, storage.Contents(), copies, index, ps);
    }
  }

  lemma NothingCopied(s: Store, index: map<int, seq<Location>>, ps: seq<Placement>)
    requires IndexOf(index, s)
    ensures CopiedSoFar(s, s, index, ps, s.order[..0]) && RecordsSoFar(s, [], index, ps, s.order[..0])
  {
    hide AfterCopy, Lists;
  }

  lemma TurnComesOnce(s: Store, n: nat)
    requires StoreOk(s) && n < |s.order|
    ensures s.order[n] in s.blocks && s.order[n] !in s.order[..n]
  {
    assert s.order[n] in s.order;
    assert forall j :: 0 <= j < n ==> s.order[..n][j] != s.order[n];
  }

  lemma ListedCopies(s: Store, index: map<int, seq<Location>>, h: int)
    requires StoreOk(s) && IndexOf(index, s) && h in s.blocks
    ensures forall l :: l in index[h] <==> l in s.blocks[h]
    ensures forall l :: l in s.blocks[h] ==> s.blocks[h][l].hash == h
  {
    assert Lists(index[h], s.blocks[h].Keys);
  }

  lemma RecordOfBlock(s: Store, t: Store, made: Option<TransferRecord>, ps: seq<Placement>, h: int)
    requires h in s.blocks && h in t.blocks && t.blocks[h] == s.blocks[h]
    requires made.Some? ==> made.value.hash == h && RecordTrue(t, made.value, ps)
    ensures made.Some? ==> RecordTrue(s, made.value, ps)
  {
  }

  lemma AllCopied(s: Store, t: Store, index: map<int, seq<Location>>, ps: seq<Placement>)
    requires StoreOk(s) && CopiedSoFar(s, t, index, ps, s.order)
    ensures Copied(s, t, index, ps)
  {
    hide AfterCopy;
  }

  /** The inner loop: tries the locations in turn and stops after the first copy it makes. */
  method CopyBlock(storage: MockKVStore, h: int, locs: seq<Location>, ps: seq<Placement>)
    returns (made: Option<TransferRecord>)
    requires h in storage.blocks && h in storage.prefixOrder
    requires forall l :: l in storage.blocks[h] ==> storage.blocks[h][l].hash == h
    requires forall l :: l in locs <==> l in storage.blocks[h]
    modifies storage
    ensures storage.Contents()
         == Store(old(storage.blocks)[h := AfterCopy(old(storage.blocks)[h], locs, ps)], old(storage.prefixOrder))
    ensures made.Some? <==> FirstMover(old(storage.blocks)[h], locs, ps) < |locs|
    ensures made.Some? ==> made.value.hash == h && RecordTrue(old(storage.Contents()), made.value, ps)
  {
    ghost var first := FirstMover(storage.blocks[h], locs, ps);
    var i := 0;
    while i < |locs|
      invariant i <= first
      invariant storage.blocks == old(storage.blocks) && storage.prefixOrder == old(storage.prefixOrder)
    {
      var source := locs[i];
      i := i + 1;
      var block := storage.Load(h, source);
      if block.None? || block.value.layerRange.None? {
        continue;
      }
      var owner := OwnerForRange(block.value.layerRange.value, ps);
      if owner.None? {
        continue;
      }
      var destination := GpuOf(owner.value.nodeId);
      if source == destination {
        continue;
      }
      storage.Save(block.value, destination);
      return Some(TransferRecord(h, block.value.layerRange.value, source, destination));
    }
    return None;
  }
}
