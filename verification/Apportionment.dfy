/** Splitting the layers in proportion to compute capability (policies/reparallelization.py). */
module Apportionment {
  import opened Types
  import opened Coverage
  import opened LargestRemainder

  /** What the policy reads of a node. */
  datatype Worker = Worker(nodeId: NodeId, computeFlops: real, alive: bool)

  ghost predicate DistinctWorkers(ns: seq<Worker>) {
    forall i, j :: 0 <= i < j < |ns| ==> ns[i].nodeId != ns[j].nodeId
  }

  function Ids(ns: seq<Worker>): (r: seq<NodeId>)
    ensures |r| == |ns|
  {
    seq(|ns|, i requires 0 <= i < |ns| => ns[i].nodeId)
  }

  // ---------------------------------------------------------------- quotas

  /** The larger of the node's flops and one. */
  function Weight(n: Worker): (w: real)
    ensures w >= 1.0 && w >= n.computeFlops
    ensures w == 1.0 || w == n.computeFlops
  {
    if n.computeFlops > 1.0 then n.computeFlops else 1.0
  }

  function TotalWeight(ns: seq<Worker>): (t: real)
    ensures t >= 0.0
    ensures ns != [] ==> t >= 1.0
  {
    if ns == [] then 0.0 else TotalWeight(ns[..|ns| - 1]) + Weight(ns[|ns| - 1])
  }

  /** The exact, fractional number of layers a weight is worth. */
  function Quota(weight: real, total: real, numLayers: nat): (q: real)
    requires total >= 1.0 && weight >= 0.0
    ensures q >= 0.0
  {
    weight / total * (numLayers as real)
  }

  function QuotasOf(ns: seq<Worker>, total: real, numLayers: nat): (q: seq<real>)
    requires total >= 1.0
    ensures |q| == |ns|
  {
    seq(|ns|, i requires 0 <= i < |ns| => Quota(Weight(ns[i]), total, numLayers))
  }

  function Quotas(ns: seq<Worker>, numLayers: nat): (q: seq<real>)
    requires ns != []
    ensures |q| == |ns|
  {
    QuotasOf(ns, TotalWeight(ns), numLayers)
  }

  lemma QuotaAdds(a: real, b: real, t: real, numLayers: nat)
    requires t >= 1.0 && a >= 0.0 && b >= 0.0
    ensures Quota(a + b, t, numLayers) == Quota(a, t, numLayers) + Quota(b, t, numLayers)
  {
    var l := numLayers as real;
    assert (a + b) / t == a / t + b / t;
    assert (a / t + b / t) * l == a / t * l + b / t * l;
  }

  lemma QuotaOfAll(t: real, numLayers: nat)
    requires t >= 1.0
    ensures Quota(t, t, numLayers) == numLayers as real
    ensures Quota(0.0, t, numLayers) == 0.0
  {
    assert t / t == 1.0;
    assert 0.0 / t == 0.0;
  }

  lemma {:induction false} QuotasSumUpTo(ns: seq<Worker>, total: real, numLayers: nat)
    requires total >= 1.0
    ensures SumReal(QuotasOf(ns, total, numLayers)) == Quota(TotalWeight(ns), total, numLayers)
  {
    if ns == [] {
      QuotaOfAll(total, numLayers);
    } else {
      var n := |ns| - 1;
      QuotasSumUpTo(ns[..n], total, numLayers);
      assert QuotasOf(ns, total, numLayers)[..n] == QuotasOf(ns[..n], total, numLayers);
      QuotaAdds(TotalWeight(ns[..n]), Weight(ns[n]), total, numLayers);
    }
  }

  lemma QuotasAreFair(ns: seq<Worker>, numLayers: nat)
    requires ns != [] && DistinctWorkers(ns)
    ensures Fair(Ids(ns), Quotas(ns, numLayers), numLayers)
  {
    QuotasSumUpTo(ns, TotalWeight(ns), numLayers);
    QuotaOfAll(TotalWeight(ns), numLayers);
  }

  // ---------------------------------------------------------------- the split of a cluster

  ghost function Split(ns: seq<Worker>, numLayers: nat): (a: seq<int>)
    requires ns != [] && DistinctWorkers(ns)
    ensures |a| == |ns|
  {
    QuotasAreFair(ns, numLayers);
    Shares(Ids(ns), Quotas(ns, numLayers), numLayers)
  }

  /** The split is exact and each node gets the floor or the ceiling of its quota. */
  lemma SplitIsExact(ns: seq<Worker>, numLayers: nat)
    requires ns != [] && DistinctWorkers(ns)
    ensures Sum(Split(ns, numLayers)) == numLayers
    ensures forall i :: 0 <= i < |ns| ==>
      && Split(ns, numLayers)[i] >= 0
      && -1.0 < Split(ns, numLayers)[i] as real - Quotas(ns, numLayers)[i] < 1.0
  {
    QuotasAreFair(ns, numLayers);
    SharesSum(Ids(ns), Quotas(ns, numLayers), numLayers);
    forall i | 0 <= i < |ns|
      ensures Split(ns, numLayers)[i] >= 0
           && -1.0 < Split(ns, numLayers)[i] as real - Quotas(ns, numLayers)[i] < 1.0
    {
      SharesWithinQuota(Ids(ns), Quotas(ns, numLayers), numLayers, i);
    }
  }

  lemma QuotaGrows(w: real, v: real, t: real, numLayers: nat)
    requires w > v >= 0.0 && t >= 1.0 && numLayers > 0
    ensures Quota(w, t, numLayers) > Quota(v, t, numLayers)
  {
    QuotaAdds(v, w - v, t, numLayers);
    assert (w - v) / t > 0.0;
    assert (w - v) / t * (numLayers as real) > 0.0;
  }

  /** A strictly stronger node never gets fewer layers. */
  lemma StrongerNeverFewer(ns: seq<Worker>, numLayers: nat, i: nat, j: nat)
    requires ns != [] && DistinctWorkers(ns) && numLayers >= 1
    requires i < |ns| && j < |ns| && Weight(ns[i]) > Weight(ns[j])
    ensures Split(ns, numLayers)[i] >= Split(ns, numLayers)[j]
  {
    QuotasAreFair(ns, numLayers);
    QuotaGrows(Weight(ns[i]), Weight(ns[j]), TotalWeight(ns), numLayers);
    LargerQuotaNeverLess(Ids(ns), Quotas(ns, numLayers), numLayers, i, j);
  }

  function Scaled(t: real, x: real): real {
    t * x
  }

  lemma ScaledAdds(t: real, x: real, y: real)
    ensures Scaled(t, x + y) == Scaled(t, x) + Scaled(t, y)
  {
  }

  lemma ScaledZero(t: real)
    ensures Scaled(t, 0.0) == 0.0
  {
  }

  lemma ScaledKeepsOrder(t: real, x: real, y: real)
    requires t >= 1.0 && x <= y
    ensures Scaled(t, x) <= Scaled(t, y)
  {
    assert t * (y - x) >= 0.0;
  }

  /** Each node's layers times the total weight, against its weight times all the layers: imbalance without division. */
  function Imbalance(ns: seq<Worker>, total: real, numLayers: nat, a: seq<int>): real
    requires |a| == |ns|
  {
    if ns == [] then 0.0
    else
      var n := |ns| - 1;
      Imbalance(ns[..n], total, numLayers, a[..n]) + Gap(a[n], total, Weight(ns[n]), numLayers)
  }

  function Gap(layers: int, total: real, weight: real, numLayers: nat): real {
    Abs(layers as real * total - weight * (numLayers as real))
  }

  lemma GapIsScaled(layers: int, total: real, weight: real, numLayers: nat)
    requires total >= 1.0 && weight >= 0.0
    ensures Gap(layers, total, weight, numLayers) == Scaled(total, Abs(layers as real - Quota(weight, total, numLayers)))
  {
    var x, l, q := layers as real, numLayers as real, Quota(weight, total, numLayers);
    assert total * q == weight * l by {
      assert total * (weight / total * l) == total * (weight / total) * l;
      assert total * (weight / total) == weight;
    }
    assert total * (x - q) == x * total - weight * l;
    if x - q < 0.0 {
      assert total * (x - q) < 0.0;
      assert total * -(x - q) == -(total * (x - q));
    } else {
      assert total * (x - q) >= 0.0;
    }
  }

  lemma {:induction false} ImbalanceIsScaled(ns: seq<Worker>, total: real, numLayers: nat, a: seq<int>)
    requires |a| == |ns| && total >= 1.0
    ensures Imbalance(ns, total, numLayers, a) == Scaled(total, Deviation(QuotasOf(ns, total, numLayers), a))
  {
    if ns == [] {
      ScaledZero(total);
    } else {
      var n := |ns| - 1;
      ImbalanceIsScaled(ns[..n], total, numLayers, a[..n]);
      assert QuotasOf(ns, total, numLayers)[..n] == QuotasOf(ns[..n], total, numLayers);
      GapIsScaled(a[n], total, Weight(ns[n]), numLayers);
      ScaledAdds(total, Deviation(QuotasOf(ns[..n], total, numLayers), a[..n]),
                 Abs(a[n] as real - Quota(Weight(ns[n]), total, numLayers)));
    }
  }

  /** Among all integer allocations b of the layers the policy's split minimises the imbalance. */
  lemma SplitMinimisesImbalance(ns: seq<Worker>, numLayers: nat, b: seq<int>)
    requires ns != [] && DistinctWorkers(ns)
    requires |b| == |ns| && Sum(b) == numLayers
    ensures Imbalance(ns, TotalWeight(ns), numLayers, Split(ns, numLayers))
         <= Imbalance(ns, TotalWeight(ns), numLayers, b)
  {
    var t := TotalWeight(ns);
    QuotasAreFair(ns, numLayers);
    SharesOptimal(Ids(ns), Quotas(ns, numLayers), numLayers, b);
    ImbalanceIsScaled(ns, t, numLayers, b);
    ImbalanceIsScaled(ns, t, numLayers, Split(ns, numLayers));
    ScaledKeepsOrder(t, Deviation(Quotas(ns, numLayers), Split(ns, numLayers)), Deviation(Quotas(ns, numLayers), b));
  }

  // ---------------------------------------------------------------- laying the shares out

  /** Consecutive ranges of the given lengths, in node order; nodes without a layer are left out. */
  function Layout(ids: seq<NodeId>, a: seq<int>): seq<Placement>
    requires |a| == |ids|
  {
    if ids == [] then []
    else
      var n := |ids| - 1;
      Layout(ids[..n], a[..n]) + Slot(ids[n], Sum(a[..n]), a[n])
  }

  function Slot(id: NodeId, start: int, cnt: int): seq<Placement> {
    if cnt <= 0 then [] else [Placement(id, Some(LayerRange(start, start + cnt)), [])]
  }

  lemma SlotJoinsUp(ps: seq<Placement>, id: NodeId, start: int, cnt: int)
    requires Chain(ps, 0, start) && cnt >= 0
    ensures Chain(ps + Slot(id, start, cnt), 0, start + cnt)
  {
    if cnt == 0 {
      assert ps + [] == ps;
    } else {
      ChainExtend(ps, 0, start, Slot(id, start, cnt)[0]);
    }
  }

  lemma {:induction false} LayoutJoinsUp(ids: seq<NodeId>, a: seq<int>)
    requires |a| == |ids|
    requires forall i :: 0 <= i < |a| ==> a[i] >= 0
    ensures Chain(Layout(ids, a), 0, Sum(a))
  {
    if ids != [] {
      var n := |ids| - 1;
      LayoutJoinsUp(ids[..n], a[..n]);
      SlotJoinsUp(Layout(ids[..n], a[..n]), ids[n], Sum(a[..n]), a[n]);
    }
  }

  lemma {:induction false} LayoutNodes(ids: seq<NodeId>, a: seq<int>)
    requires |a| == |ids| && DistinctIds(ids)
    ensures forall p :: p in Layout(ids, a) ==> p.nodeId in ids
    ensures DistinctNodes(Layout(ids, a))
  {
    if ids != [] {
      var n := |ids| - 1;
      LayoutNodes(ids[..n], a[..n]);
      assert ids[n] !in ids[..n];
      var rest := Layout(ids[..n], a[..n]);
      assert forall i :: 0 <= i < |rest| ==> rest[i] in rest && rest[i].nodeId in ids[..n];
    }
  }

  /** The placement puts this many layers from `start` on the node, and no experts. */
  predicate IsSlot(p: Placement, id: NodeId, start: int, cnt: int) {
    p.nodeId == id && p.layerRange == Some(LayerRange(start, start + cnt)) && p.expertsGpu == []
  }

  /** Exactly the nodes with a positive share have a placement, and it covers the layers that follow those of the nodes
      before. */
  ghost predicate LaidOut(ps: seq<Placement>, ids: seq<NodeId>, a: seq<int>)
    requires |a| == |ids|
  {
    && (forall k :: 0 <= k < |ids| && a[k] > 0 ==> HasSlot(ps, ids[k], Sum(a[..k]), a[k]))
    && (forall p :: p in ps ==> IsShareOf(p, ids, a))
  }

  ghost predicate HasSlot(ps: seq<Placement>, id: NodeId, start: int, cnt: int) {
    exists p :: p in ps && IsSlot(p, id, start, cnt)
  }

  ghost predicate IsShareOf(p: Placement, ids: seq<NodeId>, a: seq<int>)
    requires |a| == |ids|
  {
    exists k :: 0 <= k < |ids| && a[k] > 0 && IsSlot(p, ids[k], Sum(a[..k]), a[k])
  }

  lemma {:induction false} LayoutLaysOut(ids: seq<NodeId>, a: seq<int>)
    requires |a| == |ids|
    ensures LaidOut(Layout(ids, a), ids, a)
  {
    hide LaidOut;
    if ids != [] {
      var n := |ids| - 1;
      LayoutLaysOut(ids[..n], a[..n]);
      OneMoreSlot(Layout(ids[..n], a[..n]), ids, a);
    } else {
      NothingLaidOut(a);
    }
  }

  lemma NothingLaidOut(a: seq<int>)
    requires a == []
    ensures LaidOut([], [], a)
  {
  }

  lemma OneMoreSlot(before: seq<Placement>, ids: seq<NodeId>, a: seq<int>)
    requires |a| == |ids| > 0 && LaidOut(before, ids[..|ids| - 1], a[..|ids| - 1])
    ensures var n := |ids| - 1;
      LaidOut(before + Slot(ids[n], Sum(a[..n]), a[n]), ids, a)
  {
    hide HasSlot, IsShareOf, Sum;
    var n := |ids| - 1;
    var ps := before + Slot(ids[n], Sum(a[..n]), a[n]);
    forall k | 0 <= k < |ids| && a[k] > 0
      ensures HasSlot(ps, ids[k], Sum(a[..k]), a[k])
    {
      if k < n {
        assert a[..n][..k] == a[..k];
        assert HasSlot(before, ids[..n][k], Sum(a[..n][..k]), a[..n][k]);
        SlotStays(before, Slot(ids[n], Sum(a[..n]), a[n]), ids[k], Sum(a[..k]), a[k]);
      } else {
        SlotIsThere(before, ids[n], Sum(a[..n]), a[n]);
      }
    }
    forall p | p in ps
      ensures IsShareOf(p, ids, a)
    {
      if p in before {
        ShareStays(p, ids, a);
      } else {
        LastShare(p, ids, a);
      }
    }
  }

  lemma SlotStays(before: seq<Placement>, more: seq<Placement>, id: NodeId, start: int, cnt: int)
    requires HasSlot(before, id, start, cnt)
    ensures HasSlot(before + more, id, start, cnt)
  {
    var p :| p in before && IsSlot(p, id, start, cnt);
    assert p in before + more;
  }

  lemma SlotIsThere(before: seq<Placement>, id: NodeId, start: int, cnt: int)
    requires cnt > 0
    ensures HasSlot(before + Slot(id, start, cnt), id, start, cnt)
  {
    var p := Slot(id, start, cnt)[0];
    assert p in before + Slot(id, start, cnt) && IsSlot(p, id, start, cnt);
  }

  lemma ShareStays(p: Placement, ids: seq<NodeId>, a: seq<int>)
    requires |a| == |ids| > 0 && IsShareOf(p, ids[..|ids| - 1], a[..|ids| - 1])
    ensures IsShareOf(p, ids, a)
  {
    hide Sum;
    var n := |ids| - 1;
    var k :| 0 <= k < n && a[..n][k] > 0 && IsSlot(p, ids[..n][k], Sum(a[..n][..k]), a[..n][k]);
    assert a[..n][..k] == a[..k];
    assert IsSlot(p, ids[k], Sum(a[..k]), a[k]);
  }

  lemma LastShare(p: Placement, ids: seq<NodeId>, a: seq<int>)
    requires |a| == |ids| > 0 && p in Slot(ids[|ids| - 1], Sum(a[..|ids| - 1]), a[|ids| - 1])
    ensures IsShareOf(p, ids, a)
  {
    hide Sum;
    var n := |ids| - 1;
    assert IsSlot(p, ids[n], Sum(a[..n]), a[n]);
  }

  /** The number of layers of a placement. */
  function Width(p: Placement): int {
    if p.layerRange.None? then 0 else p.layerRange.value.end - p.layerRange.value.start
  }

  /** Whatever the node of v holds, the node of w holds at least as many layers. */
  ghost predicate OwnsAsMuch(ps: seq<Placement>, w: Worker, v: Worker) {
    forall q :: q in ps && q.nodeId == v.nodeId ==> exists p :: p in ps && p.nodeId == w.nodeId && Width(p) >= Width(q)
  }

  ghost predicate StrongerOwnMore(ps: seq<Placement>, nodes: seq<Worker>) {
    forall w, v :: w in nodes && v in nodes && w.alive && v.alive && w.computeFlops > v.computeFlops && w.computeFlops > 1.0 ==>
      OwnsAsMuch(ps, w, v)
  }

  /** On the placements themselves: more flops never mean fewer layers (below one flop all nodes count alike). */
  lemma StrongerNodeOwnsMore(ns: seq<Worker>, numLayers: nat, ps: seq<Placement>, w: Worker, v: Worker)
    requires ns != [] && DistinctWorkers(ns) && numLayers >= 1
    requires LaidOut(ps, Ids(ns), Split(ns, numLayers))
    requires w in ns && v in ns && w.computeFlops > v.computeFlops && w.computeFlops > 1.0
    ensures OwnsAsMuch(ps, w, v)
  {
    hide Split;
    var a := Split(ns, numLayers);
    var i :| 0 <= i < |ns| && ns[i] == w;
    forall q | q in ps && q.nodeId == v.nodeId
      ensures exists p :: p in ps && p.nodeId == w.nodeId && Width(p) >= Width(q)
    {
      assert IsShareOf(q, Ids(ns), a);
      var j :| 0 <= j < |ns| && a[j] > 0 && IsSlot(q, Ids(ns)[j], Sum(a[..j]), a[j]);
      var k :| 0 <= k < |ns| && ns[k] == v;
      assert j == k;
      StrongerNeverFewer(ns, numLayers, i, j);
      assert HasSlot(ps, Ids(ns)[i], Sum(a[..i]), a[i]);
      var p :| p in ps && IsSlot(p, Ids(ns)[i], Sum(a[..i]), a[i]);
    }
  }

  /** Every plan the policy computes is one the coverage validator accepts. */
  lemma SplitTiles(ns: seq<Worker>, numLayers: nat)
    requires ns != [] && DistinctWorkers(ns) && numLayers >= 1
    ensures Tiles(Layout(Ids(ns), Split(ns, numLayers)), numLayers)
    ensures forall p :: p in Layout(Ids(ns), Split(ns, numLayers)) ==> p.nodeId in Ids(ns)
  {
    SplitIsExact(ns, numLayers);
    LayoutJoinsUp(Ids(ns), Split(ns, numLayers));
    LayoutNodes(Ids(ns), Split(ns, numLayers));
    ChainTiles(Layout(Ids(ns), Split(ns, numLayers)), numLayers);
  }

  // ---------------------------------------------------------------- the policy

  function AliveOf(ns: seq<Worker>): seq<Worker> {
    if ns == [] then []
    else AliveOf(ns[..|ns| - 1]) + if ns[|ns| - 1].alive then [ns[|ns| - 1]] else []
  }

  lemma {:induction false} AliveAreDistinct(ns: seq<Worker>)
    requires DistinctWorkers(ns)
    ensures DistinctWorkers(AliveOf(ns))
    ensures forall x :: x in AliveOf(ns) <==> x in ns && x.alive
  {
    if ns != [] {
      var n := |ns| - 1;
      AliveAreDistinct(ns[..n]);
      assert ns == ns[..n] + [ns[n]];
      var r := AliveOf(ns[..n]);
      forall i | 0 <= i < |r|
        ensures r[i].nodeId != ns[n].nodeId
      {
        assert r[i] in r;
        var k :| 0 <= k < n && ns[..n][k] == r[i];
        assert ns[k].nodeId != ns[n].nodeId;
      }
    }
  }

  /** The alive nodes stand in the order of the list. */
  lemma {:induction false} AliveInOrder(ns: seq<Worker>, i: nat, j: nat)
    requires i < j < |AliveOf(ns)|
    ensures exists a, b :: 0 <= a < b < |ns| && ns[a] == AliveOf(ns)[i] && ns[b] == AliveOf(ns)[j]
  {
    var n := |ns| - 1;
    var before := AliveOf(ns[..n]);
    if j < |before| {
      AliveInOrder(ns[..n], i, j);
      var a, b :| 0 <= a < b < n && ns[..n][a] == before[i] && ns[..n][b] == before[j];
      assert ns[a] == before[i] && ns[b] == before[j];
    } else {
      AliveAreMembers(ns[..n]);
      assert before[i] in ns[..n];
      var a :| 0 <= a < n && ns[..n][a] == before[i];
      assert ns[a] == AliveOf(ns)[i] && ns[n] == AliveOf(ns)[j];
    }
  }

  lemma {:induction false} AliveAreMembers(ns: seq<Worker>)
    ensures forall x :: x in AliveOf(ns) <==> x in ns && x.alive
  {
    if ns != [] {
      AliveAreMembers(ns[..|ns| - 1]);
      assert ns == ns[..|ns| - 1] + [ns[|ns| - 1]];
    }
  }

  method KeepAlive(nodes: seq<Worker>) returns (alive: seq<Worker>)
    ensures alive == AliveOf(nodes)
  {
    alive := [];
    for i := 0 to |nodes|
      invariant alive == AliveOf(nodes[..i])
    {
      assert nodes[..i + 1][..i] == nodes[..i];
      if nodes[i].alive {
        alive := alive + [nodes[i]];
      }
    }
    assert nodes[..|nodes|] == nodes;
  }

  method TotalFlops(ns: seq<Worker>) returns (total: real)
    ensures total == TotalWeight(ns)
  {
    total := 0.0;
    for i := 0 to |ns|
      invariant total == TotalWeight(ns[..i])
    {
      assert ns[..i + 1][..i] == ns[..i];
      total := total + Weight(ns[i]);
    }
    assert ns[..|ns|] == ns;
  }

  /** The layers each node gets: whole quotas first, then one more by falling fractional part. */
  method AssignLayers(ids: seq<NodeId>, raw: seq<real>, numLayers: nat) returns (layersOf: map<NodeId, int>)
    requires Fair(ids, raw, numLayers)
    ensures forall k :: 0 <= k < |ids| ==>
      ids[k] in layersOf && layersOf[ids[k]] == Shares(ids, raw, numLayers)[k]
  {
    layersOf := map[];
    var sum := 0;
    for i := 0 to |ids|
      invariant forall k :: 0 <= k < i ==> ids[k] in layersOf && layersOf[ids[k]] == raw[k].Floor
      invariant sum == Sum(Floors(raw)[..i])
    {
      layersOf := layersOf[ids[i] := raw[i].Floor];
      assert Floors(raw)[..i + 1][..i] == Floors(raw)[..i];
      sum := sum + raw[i].Floor;
    }
    assert Floors(raw)[..|ids|] == Floors(raw);
    var remaining := numLayers - sum;
    RemainingFits(ids, raw, numLayers);
    ByFractionOrder(ids, raw);
    if remaining > 0 {
      var byFraction := ByFraction(ids, raw);
      for i := 0 to remaining
        invariant forall k :: 0 <= k < |ids| ==>
          ids[k] in layersOf && layersOf[ids[k]] == raw[k].Floor + if IsIn(ids[k], byFraction[..i]) then 1 else 0
      {
        var nid := byFraction[i].0;
        assert byFraction[i] in Items(ids, raw);
        assert !IsIn(nid, byFraction[..i]);
        assert byFraction[..i + 1] == byFraction[..i] + [byFraction[i]];
        forall k | 0 <= k < |ids|
          ensures IsIn(ids[k], byFraction[..i + 1]) <==> IsIn(ids[k], byFraction[..i]) || ids[k] == nid
        {
          if ids[k] == nid {
            assert byFraction[i] in byFraction[..i + 1];
          }
        }
        layersOf := layersOf[nid := layersOf[nid] + 1];
      }
    }
  }

  /** Turns layer counts into consecutive ranges; `start` ends at the number of layers laid out. */
  method LayOut(ids: seq<NodeId>, layersOf: map<NodeId, int>, ghost shares: seq<int>)
    returns (placements: seq<Placement>, start: int)
    requires |shares| == |ids|
    requires forall k :: 0 <= k < |ids| ==> ids[k] in layersOf && layersOf[ids[k]] == shares[k] >= 0
    ensures placements == Layout(ids, shares)
    ensures LaidOut(placements, ids, shares)
    ensures start == Sum(shares)
  {
    hide LaidOut;
    placements := [];
    start := 0;
    for i := 0 to |ids|
      invariant start == Sum(shares[..i])
      invariant placements == Layout(ids[..i], shares[..i])
    {
      assert ids[..i + 1][..i] == ids[..i] && shares[..i + 1][..i] == shares[..i];
      var cnt := layersOf[ids[i]];
      if cnt > 0 {
        placements := placements + [Placement(ids[i], Some(LayerRange(start, start + cnt)), [])];
        start := start + cnt;
      }
    }
    assert ids[..|ids|] == ids && shares[..|ids|] == shares;
    LayoutLaysOut(ids, shares);
  }

  ghost predicate IsAliveWorker(id: NodeId, nodes: seq<Worker>) {
    exists n :: n in nodes && n.alive && n.nodeId == id
  }

  ghost predicate OnAliveNodes(ps: seq<Placement>, nodes: seq<Worker>) {
    forall p :: p in ps ==> IsAliveWorker(p.nodeId, nodes)
  }

  /** The alive nodes, in their order, have their shares of the layers one after the other. */
  ghost predicate Proportional(ps: seq<Placement>, nodes: seq<Worker>, numLayers: nat) {
    var alive := AliveOf(nodes);
    && alive != [] && DistinctWorkers(alive)
    && ps == Layout(Ids(alive), Split(alive, numLayers))
    && LaidOut(ps, Ids(alive), Split(alive, numLayers))
  }

  /** CapabilityReparallelization.reconfigure. Node ids are distinct because nodes come from a table keyed by id. */
  method Reconfigure(model: Option<nat>, nodes: seq<Worker>, currentPlacements: seq<Placement>)
    returns (placements: seq<Placement>)
    requires DistinctWorkers(nodes)
    ensures model.None? || nodes == [] ==> placements == currentPlacements
    ensures model.Some? && nodes != [] && AliveOf(nodes) == [] ==> placements == []
    ensures model.Some? && nodes != [] && AliveOf(nodes) != [] ==>
      && Proportional(placements, nodes, model.value)
      && (model.value >= 1 ==> StrongerOwnMore(placements, nodes))
      && (model.value >= 1 ==> Tiles(placements, model.value))
      && OnAliveNodes(placements, nodes)
  {
    hide Quota, Tiles, Shares, LaidOut, OwnsAsMuch;
    if model.None? || nodes == [] {
      return currentPlacements;
    }
    var alive := KeepAlive(nodes);
    AliveAreDistinct(nodes);
    if alive == [] {
      return [];
    }
    var numLayers := model.value;
    var totalFlops := TotalFlops(alive);
    var raw := QuotasOf(alive, totalFlops, numLayers);
    QuotasAreFair(alive, numLayers);
    var layersOf := AssignLayers(Ids(alive), raw, numLayers);
    SplitIsExact(alive, numLayers);
    var start;
    placements, start := LayOut(Ids(alive), layersOf, Split(alive, numLayers));
    if start < numLayers && placements != [] {
      // The repair step of the source gives layers left over to the last node. There are never any.
      assert false;
    }
    LayoutNodes(Ids(alive), Split(alive, numLayers));
    LayoutLaysOut(Ids(alive), Split(alive, numLayers));
    if numLayers >= 1 {
      SplitTiles(alive, numLayers);
      forall w, v | w in nodes && v in nodes && w.alive && v.alive && w.computeFlops > v.computeFlops && w.computeFlops > 1.0
        ensures OwnsAsMuch(placements, w, v)
      {
        StrongerNodeOwnsMore(alive, numLayers, placements, w, v);
      }
    }
    forall p | p in placements
      ensures IsAliveWorker(p.nodeId, nodes)
    {
      var i :| 0 <= i < |alive| && Ids(alive)[i] == p.nodeId;
      assert alive[i] in nodes;
    }
  }
}
