/** What the memory of a placement amounts to (core/model_manager.py, _placement_memory), and that of a whole plan. */
module PlanMemory {
  import opened Types
  import opened Sorting
  import opened Coverage
  import opened ModelManagement

  /** This many layers, wherever they start, without experts. */
  function Bare(n: NodeId, start: int, end: int): Placement {
    Placement(n, Some(LayerRange(start, end)), [])
  }

  /** Ranges that join up need together what the joined range needs, and where a range lies does not matter. */
  lemma RangesAddUp(m: Model, n: NodeId, a: int, b: int, c: int, shift: int)
    ensures PlacementMemory(m, Bare(n, a, b)) + PlacementMemory(m, Bare(n, b, c)) == PlacementMemory(m, Bare(n, a, c))
    ensures PlacementMemory(m, Bare(n, a, b)) == PlacementMemory(m, Bare(n, a + shift, b + shift))
  {
    var l := LayerBytes(m);
    assert (b - a) * l + (c - b) * l == (c - a) * l;
  }

  /** Each expert listed adds its size, and the layers need what they need without any. */
  lemma ExpertsAddUp(m: Model, p: Placement, id: int)
    ensures PlacementMemory(m, p.(expertsGpu := [id] + p.expertsGpu)) == PlacementMemory(m, p) + ExpertBytes(m.experts, id)
    ensures p.layerRange.Some? && p.expertsGpu == [] ==>
      PlacementMemory(m, p) == PlacementMemory(m, Bare(p.nodeId, p.layerRange.value.start, p.layerRange.value.end))
    ensures p.layerRange.None? && p.expertsGpu == [] ==> PlacementMemory(m, p) == 0
  {
    assert ([id] + p.expertsGpu)[1..] == p.expertsGpu;
  }

  /** The size of an expert is that of the first entry with its id. */
  lemma {:induction false} FirstExpertCounts(experts: seq<(int, nat)>, id: int, i: nat)
    requires i < |experts| && experts[i].0 == id && forall j :: 0 <= j < i ==> experts[j].0 != id
    ensures ExpertBytes(experts, id) == experts[i].1
  {
    if i > 0 {
      FirstExpertCounts(experts[1..], id, i - 1);
    }
  }

  /** An expert that is not listed in the model takes nothing. */
  lemma {:induction false} UnknownExpertIsFree(experts: seq<(int, nat)>, id: int)
    requires forall i :: 0 <= i < |experts| ==> experts[i].0 != id
    ensures ExpertBytes(experts, id) == 0
  {
    if experts != [] {
      UnknownExpertIsFree(experts[1..], id);
    }
  }

  /** What a table asks for over the nodes of a plan. */
  function BytesAsked(demand: map<NodeId, int>, ps: seq<Placement>): int
    requires forall p :: p in ps ==> p.nodeId in demand
  {
    if ps == [] then 0 else demand[ps[0].nodeId] + BytesAsked(demand, ps[1..])
  }

  function ExpertsAsked(m: Model, ps: seq<Placement>): int {
    if ps == [] then 0 else ExpertsBytes(m.experts, ps[0].expertsGpu) + ExpertsAsked(m, ps[1..])
  }

  function LayersAsked(ps: seq<Placement>): int {
    if ps == [] then 0
    else LayersOn(ps[0]) + LayersAsked(ps[1..])
  }

  function LayersOn(p: Placement): int {
    if p.layerRange.None? then 0 else p.layerRange.value.end - p.layerRange.value.start
  }

  lemma {:induction false} LayersOfInserted(p: Placement, ps: seq<Placement>)
    ensures LayersAsked(Insert(p, ps, RangeLe)) == LayersAsked([p] + ps)
  {
    assert ([p] + ps)[1..] == ps;
    if ps != [] && !RangeLe(p, ps[0]) {
      LayersOfInserted(p, ps[1..]);
      assert ([ps[0]] + Insert(p, ps[1..], RangeLe))[1..] == Insert(p, ps[1..], RangeLe);
      assert ([p] + ps[1..])[1..] == ps[1..];
    }
  }

  lemma {:induction false} LayersOfOrdered(ps: seq<Placement>)
    ensures LayersAsked(Ordered(ps)) == LayersAsked(ps)
  {
    if ps != [] {
      LayersOfOrdered(ps[1..]);
      LayersOfInserted(ps[0], Ordered(ps[1..]));
      assert ([ps[0]] + Ordered(ps[1..]))[1..] == Ordered(ps[1..]);
    }
  }

  lemma {:induction false} LayersOfChain(ps: seq<Placement>, from: int, to: int)
    requires Chain(ps, from, to)
    ensures LayersAsked(ps) == to - from
  {
    if ps != [] {
      LayersOfChain(ps[1..], ps[0].layerRange.value.end, to);
    }
  }

  lemma BytesOfOne(m: Model, p: Placement)
    ensures PlacementMemory(m, p) == LayersOn(p) * LayerBytes(m) + ExpertsBytes(m.experts, p.expertsGpu)
  {
  }

  lemma Distribute(x: int, y: int, l: int)
    ensures (x + y) * l == x * l + y * l
  {
  }

  lemma {:induction false} BytesOfLayers(m: Model, demand: map<NodeId, int>, ps: seq<Placement>)
    requires forall p :: p in ps ==> p.nodeId in demand && demand[p.nodeId] == PlacementMemory(m, p)
    ensures BytesAsked(demand, ps) == LayersAsked(ps) * LayerBytes(m) + ExpertsAsked(m, ps)
  {
    hide PlacementMemory, LayersOn, LayerBytes, ExpertsBytes;
    if ps != [] {
      BytesOfLayers(m, demand, ps[1..]);
      assert ps[0] in ps;
      BytesOfOne(m, ps[0]);
      Distribute(LayersOn(ps[0]), LayersAsked(ps[1..]), LayerBytes(m));
    }
  }

  /** Over the nodes of a plan that tiles the model, the demands come to the parameters of the model, short of the rest that
      is lost when they are divided among the layers, and the experts listed. */
  lemma PlanNeedsWholeModel(m: Model, ps: seq<Placement>)
    requires Tiles(ps, m.numLayers)
    ensures forall p :: p in ps ==> p.nodeId in Demand(m, ps)
    ensures m.numLayers > 0
    ensures BytesAsked(Demand(m, ps), ps) == m.totalParamsBytes - m.totalParamsBytes % m.numLayers + ExpertsAsked(m, ps)
  {
    hide PlacementMemory, Tiles, BytesAsked, ExpertsAsked, LayersAsked, Ordered;
    TilesFacts(m, ps);
    ByNodeEntries(ps);
    BytesOfLayers(m, Demand(m, ps), ps);
    TilesIsChain(ps, m.numLayers);
    LayersOfChain(Ordered(ps), 0, m.numLayers);
    LayersOfOrdered(ps);
    assert m.numLayers * LayerBytes(m) == m.totalParamsBytes - m.totalParamsBytes % m.numLayers;
  }

  lemma TilesFacts(m: Model, ps: seq<Placement>)
    requires Tiles(ps, m.numLayers)
    ensures DistinctNodes(ps) && m.numLayers > 0
  {
    assert ps[0] in ps && RangeInside(ps[0], m.numLayers);
  }
}
