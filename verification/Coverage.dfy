/** Layer coverage of a pipeline plan (core/model_manager.py, validate_pipeline_coverage). */
module Coverage {
  import opened Types
  import opened Sorting

  datatype CoverageError =
    | EmptyPlan
    | DuplicateNode(nodeId: NodeId)
    | NoLayerRange(nodeId: NodeId)
    | GapOrOverlap(expected: int, found: LayerRange)
    | WrongEnd(reached: int)

  // ---------------------------------------------------------------- what a good plan is

  predicate Owns(p: Placement, layer: int) {
    p.layerRange.Some? && p.layerRange.value.start <= layer < p.layerRange.value.end
  }

  ghost predicate Covered(ps: seq<Placement>, layer: int) {
    exists p :: p in ps && Owns(p, layer)
  }

  predicate RangeInside(p: Placement, numLayers: int) {
    p.layerRange.Some? && 0 <= p.layerRange.value.start < p.layerRange.value.end <= numLayers
  }

  ghost predicate DistinctNodes(ps: seq<Placement>) {
    forall i, j :: 0 <= i < j < |ps| ==> ps[i].nodeId != ps[j].nodeId
  }

  /** Each layer has exactly one owner, each node occurs once and every range is a non-empty part of the model. */
  ghost predicate Tiles(ps: seq<Placement>, numLayers: int) {
    && ps != []
    && DistinctNodes(ps)
    && (forall p :: p in ps ==> RangeInside(p, numLayers))
    && (forall k :: 0 <= k < numLayers ==> Covered(ps, k))
    && (forall p, q, k :: p in ps && q in ps && Owns(p, k) && Owns(q, k) ==> p == q)
  }

  // ---------------------------------------------------------------- order of the check

  function RangeKey(p: Placement): (int, int) {
    match p.layerRange
    case None => (-1, -1)
    case Some(r) => (r.start, r.end)
  }

  predicate RangeLe(p: Placement, q: Placement) {
    var (a, b) := RangeKey(p);
    var (c, d) := RangeKey(q);
    a < c || (a == c && b <= d)
  }

  function Ordered(ps: seq<Placement>): seq<Placement> {
    Sort(ps, RangeLe)
  }

  lemma OrderedIsSorted(ps: seq<Placement>)
    ensures SortedBy(Ordered(ps), RangeLe)
    ensures forall p :: p in Ordered(ps) <==> p in ps
  {
    assert TotalPreorder(RangeLe);
    SortSorts(ps, RangeLe);
    MembersOfEqualMultisets(Ordered(ps), ps);
  }

  /** Distinct nodes do not depend on the order of the list. */
  lemma DistinctNodesOfPermutation(ps: seq<Placement>, qs: seq<Placement>)
    requires multiset(ps) == multiset(qs)
    requires DistinctNodes(ps)
    ensures DistinctNodes(qs)
  {
    MembersOfEqualMultisets(ps, qs);
    forall i, j | 0 <= i < j < |qs|
      ensures qs[i].nodeId != qs[j].nodeId
    {
      if qs[i] == qs[j] {
        CountAtLeastTwo(qs, i, j);
        var a, b := TwoPositions(ps, qs[i]);
        assert false;
      } else {
        var a :| 0 <= a < |ps| && ps[a] == qs[i];
        var b :| 0 <= b < |ps| && ps[b] == qs[j];
        assert a < b || b < a;
      }
    }
  }

  lemma TilesOfPermutation(ps: seq<Placement>, qs: seq<Placement>, numLayers: int)
    requires multiset(ps) == multiset(qs)
    requires Tiles(ps, numLayers)
    ensures Tiles(qs, numLayers)
  {
    MembersOfEqualMultisets(ps, qs);
    DistinctNodesOfPermutation(ps, qs);
    assert ps[0] in ps;
    forall k | 0 <= k < numLayers
      ensures Covered(qs, k)
    {
      assert Covered(ps, k);
      var p :| p in ps && Owns(p, k);
    }
  }

  // ---------------------------------------------------------------- chains

  /** The ranges of ps join up, one after the other, from layer `from` to layer `to`. */
  predicate Chain(ps: seq<Placement>, from: int, to: int) {
    if ps == [] then from == to
    else
      && ps[0].layerRange.Some?
      && ps[0].layerRange.value.start == from
      && from < ps[0].layerRange.value.end
      && Chain(ps[1..], ps[0].layerRange.value.end, to)
  }

  lemma {:induction false} ChainExtend(ps: seq<Placement>, from: int, mid: int, p: Placement)
    requires Chain(ps, from, mid)
    requires p.layerRange.Some? && p.layerRange.value.start == mid < p.layerRange.value.end
    ensures Chain(ps + [p], from, p.layerRange.value.end)
  {
    if ps == [] {
      assert [p][1..] == [];
    } else {
      ChainExtend(ps[1..], ps[0].layerRange.value.end, mid, p);
      assert (ps + [p])[1..] == ps[1..] + [p];
    }
  }

  /** Along a chain each layer in between has one owner, and no other layer has any. */
  lemma {:induction false} ChainOwners(ps: seq<Placement>, from: int, to: int)
    requires Chain(ps, from, to)
    ensures from <= to
    ensures forall p :: p in ps ==>
      p.layerRange.Some? && from <= p.layerRange.value.start < p.layerRange.value.end <= to
    ensures forall k :: from <= k < to ==> Covered(ps, k)
    ensures forall i, j, k :: 0 <= i < |ps| && 0 <= j < |ps| && Owns(ps[i], k) && Owns(ps[j], k) ==> i == j
  {
    if ps != [] {
      var mid := ps[0].layerRange.value.end;
      ChainOwners(ps[1..], mid, to);
      assert forall i :: 1 <= i < |ps| ==> ps[i] == ps[1..][i - 1];
      assert forall i :: 1 <= i < |ps| ==> ps[i] in ps[1..];
      assert forall p :: p in ps ==> p == ps[0] || p in ps[1..];
      forall k | from <= k < to
        ensures Covered(ps, k)
      {
        if k < mid {
          assert ps[0] in ps && Owns(ps[0], k);
        } else {
          assert Covered(ps[1..], k);
          var p :| p in ps[1..] && Owns(p, k);
          assert p in ps;
        }
      }
    }
  }

  lemma ChainTiles(ps: seq<Placement>, numLayers: int)
    requires ps != []
    requires DistinctNodes(ps)
    requires Chain(ps, 0, numLayers)
    ensures Tiles(ps, numLayers)
  {
    ChainOwners(ps, 0, numLayers);
  }

  /** Where the first i ranges end. */
  function EndOf(ps: seq<Placement>, i: nat): int
    requires i <= |ps|
  {
    if i == 0 || ps[i - 1].layerRange.None? then 0 else ps[i - 1].layerRange.value.end
  }

  /** In range order, the first i ranges of a tiling join up. */
  lemma {:induction false} TilesChains(ps: seq<Placement>, numLayers: int, i: nat)
    requires Tiles(ps, numLayers)
    requires SortedBy(ps, RangeLe)
    requires i <= |ps|
    ensures Chain(ps[..i], 0, EndOf(ps, i))
  {
    if i > 0 {
      TilesChains(ps, numLayers, i - 1);
      var e := EndOf(ps, i - 1);
      var p := ps[i - 1];
      assert p in ps;
      var s := p.layerRange.value.start;
      if s < e {
        var q := ps[i - 2];
        assert RangeLe(q, p) && q in ps;
        assert Owns(q, s) && Owns(p, s);
        assert false;
      }
      if s > e {
        assert i >= 2 ==> ps[i - 2] in ps;
        assert Covered(ps, e);
        ChainOwners(ps[..i - 1], 0, e);
        forall q | q in ps
          ensures !Owns(q, e)
        {
          var j :| 0 <= j < |ps| && ps[j] == q;
          assert if j < i - 1 then q in ps[..i - 1] else j == i - 1 || RangeLe(p, q);
        }
        assert false;
      }
      ChainExtend(ps[..i - 1], 0, e, p);
      assert ps[..i - 1] + [p] == ps[..i];
    }
  }

  lemma SortedTilesIsChain(ps: seq<Placement>, numLayers: int)
    requires Tiles(ps, numLayers)
    requires SortedBy(ps, RangeLe)
    ensures Chain(ps, 0, numLayers)
  {
    TilesChains(ps, numLayers, |ps|);
    assert ps[..|ps|] == ps;
    var last := EndOf(ps, |ps|);
    assert ps[|ps| - 1] in ps;
    if last < numLayers {
      assert Covered(ps, last);
      ChainOwners(ps, 0, last);
    }
  }

  /** In range order a tiling is a chain over all the layers. */
  lemma TilesIsChain(ps: seq<Placement>, numLayers: int)
    requires Tiles(ps, numLayers)
    ensures Chain(Ordered(ps), 0, numLayers)
    ensures Tiles(Ordered(ps), numLayers)
  {
    OrderedIsSorted(ps);
    TilesOfPermutation(ps, Ordered(ps), numLayers);
    SortedTilesIsChain(Ordered(ps), numLayers);
  }

  // ---------------------------------------------------------------- the validator

  /** The truth behind each complaint of the validator. */
  ghost predicate Explains(e: CoverageError, ps: seq<Placement>, numLayers: int) {
    match e
    case EmptyPlan => ps == []
    case DuplicateNode(n) => exists i, j :: 0 <= i < j < |ps| && ps[i].nodeId == ps[j].nodeId == n
    case NoLayerRange(n) => exists p :: p in ps && p.nodeId == n && p.layerRange.None?
    case GapOrOverlap(k, r) =>
      (exists p :: p in ps && p.layerRange == Some(r)) && (r.start != k || r.end <= r.start)
    case WrongEnd(k) => k != numLayers && Chain(Ordered(ps), 0, k)
  }

  /** validate_pipeline_coverage: accepts exactly the plans that tile the model, in whatever order they are listed. */
  method Validate(placements: seq<Placement>, numLayers: int) returns (r: Result<(), CoverageError>)
    ensures r.Success? <==> Tiles(placements, numLayers)
    ensures r.Failure? ==> Explains(r.error, placements, numLayers)
  {
    if placements == [] {
      return Failure(EmptyPlan);
    }
    var ordered := Ordered(placements);
    OrderedIsSorted(placements);
    var expectedStart := 0;
    var seenNodes: set<NodeId> := {};
    for i := 0 to |ordered|
      invariant seenNodes == set j | 0 <= j < i :: ordered[j].nodeId
      invariant forall j, k :: 0 <= j < k < i ==> ordered[j].nodeId != ordered[k].nodeId
      invariant Chain(ordered[..i], 0, expectedStart)
      invariant i > 0 ==> ordered[i - 1].layerRange.Some? && expectedStart == ordered[i - 1].layerRange.value.end
    {
      var placement := ordered[i];
      if placement.nodeId in seenNodes {
        var j :| 0 <= j < i && ordered[j].nodeId == placement.nodeId;
        DuplicateMeansNotDistinct(placements, ordered, j, i);
        return Failure(DuplicateNode(placement.nodeId));
      }
      seenNodes := seenNodes + {placement.nodeId};
      if placement.layerRange.None? {
        assert placement in placements;
        return Failure(NoLayerRange(placement.nodeId));
      }
      var range := placement.layerRange.value;
      if range.start != expectedStart || range.end <= range.start {
        BrokenChainIsNoTiling(placements, numLayers, i, expectedStart);
        assert placement in placements;
        return Failure(GapOrOverlap(expectedStart, range));
      }
      ChainExtend(ordered[..i], 0, expectedStart, placement);
      assert ordered[..i] + [placement] == ordered[..i + 1];
      expectedStart := range.end;
    }
    assert ordered[..|ordered|] == ordered;
    if expectedStart != numLayers {
      if Tiles(placements, numLayers) {
        TilesIsChain(placements, numLayers);
        ChainEndUnique(ordered, 0, expectedStart, numLayers);
      }
      return Failure(WrongEnd(expectedStart));
    }
    ChainTiles(ordered, numLayers);
    TilesOfPermutation(ordered, placements, numLayers);
    return Success(());
  }

  lemma {:induction false} ChainEndUnique(ps: seq<Placement>, from: int, to: int, to': int)
    requires Chain(ps, from, to) && Chain(ps, from, to')
    ensures to == to'
  {
    if ps != [] {
      ChainEndUnique(ps[1..], ps[0].layerRange.value.end, to, to');
    }
  }

  lemma DuplicateMeansNotDistinct(ps: seq<Placement>, qs: seq<Placement>, i: nat, j: nat)
    requires multiset(ps) == multiset(qs)
    requires i < j < |qs| && qs[i].nodeId == qs[j].nodeId
    ensures exists a, b :: 0 <= a < b < |ps| && ps[a].nodeId == ps[b].nodeId == qs[i].nodeId
  {
    MembersOfEqualMultisets(ps, qs);
    if qs[i] == qs[j] {
      CountAtLeastTwo(qs, i, j);
      var a, b := TwoPositions(ps, qs[i]);
    } else {
      assert qs[i] in ps && qs[j] in ps;
      var a :| 0 <= a < |ps| && ps[a] == qs[i];
      var b :| 0 <= b < |ps| && ps[b] == qs[j];
      if a < b {
        assert ps[a].nodeId == ps[b].nodeId;
      } else {
        assert ps[b].nodeId == ps[a].nodeId;
      }
    }
  }

  lemma BrokenChainIsNoTiling(ps: seq<Placement>, numLayers: int, i: nat, expected: int)
    requires i < |Ordered(ps)|
    requires Chain(Ordered(ps)[..i], 0, expected)
    requires var r := Ordered(ps)[i].layerRange;
      r.Some? && (r.value.start != expected || r.value.end <= r.value.start)
    ensures !Tiles(ps, numLayers)
  {
    if Tiles(ps, numLayers) {
      var s := Ordered(ps);
      OrderedIsSorted(ps);
      TilesOfPermutation(ps, s, numLayers);
      TilesChains(s, numLayers, i);
      TilesChains(s, numLayers, i + 1);
      assert s[..i + 1] == s[..i] + [s[i]];
      ChainEndUnique(s[..i], 0, expected, EndOf(s, i));
      ChainSplit(s[..i + 1], 0, s[i].layerRange.value.end, i);
      assert s[..i + 1][..i] == s[..i] && s[..i + 1][i..] == [s[i]];
      var mid :| Chain(s[..i], 0, mid) && Chain([s[i]], mid, s[i].layerRange.value.end);
      ChainEndUnique(s[..i], 0, expected, mid);
    }
  }

  lemma {:induction false} ChainSplit(ps: seq<Placement>, from: int, to: int, i: nat)
    requires Chain(ps, from, to) && i <= |ps|
    ensures exists mid :: Chain(ps[..i], from, mid) && Chain(ps[i..], mid, to)
  {
    if i == 0 {
      assert ps[..0] == [] && ps[0..] == ps;
      assert Chain(ps[..0], from, from);
    } else {
      var e := ps[0].layerRange.value.end;
      ChainSplit(ps[1..], e, to, i - 1);
      var mid :| Chain(ps[1..][..i - 1], e, mid) && Chain(ps[1..][i - 1..], mid, to);
      assert ps[..i][1..] == ps[1..][..i - 1];
      assert ps[i..] == ps[1..][i - 1..];
      assert Chain(ps[..i], from, mid);
    }
  }
}
