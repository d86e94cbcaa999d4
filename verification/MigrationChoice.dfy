/** Which blocks of a leaving node to keep under a time budget, and where to put them
    (policies/migration.py, the selection in PriorityMigration.decide and _assign_target). */
module MigrationChoice {
  import opened Types
  import opened KvStore
  import opened Products

  /** A block on offer: what it is worth, where it would go (nowhere, if there is no target) and what moving it takes. */
  datatype Offer = Offer(hash: int, priority: real, src: Location, dst: Option<Location>, cost: real)

  // ---------------------------------------------------------------- greedy selection

  /** The total of the chosen entries. */
  function ChosenTotal(values: seq<real>, chosen: seq<bool>): real
    requires |values| == |chosen|
  {
    if values == [] then 0.0
    else
      var n := |values| - 1;
      ChosenTotal(values[..n], chosen[..n]) + if chosen[n] then values[n] else 0.0
  }

  function Costs(offers: seq<Offer>): (r: seq<real>)
    ensures |r| == |offers|
  {
    seq(|offers|, i requires 0 <= i < |offers| => offers[i].cost)
  }

  function Priorities(offers: seq<Offer>): (r: seq<real>)
    ensures |r| == |offers|
  {
    seq(|offers|, i requires 0 <= i < |offers| => offers[i].priority)
  }

  /** No deadline means an unlimited budget. */
  predicate Within(spent: real, deadline: Option<real>) {
    deadline.None? || spent <= deadline.value
  }

  /** Each offer in turn is kept if it has a target and still fits. */
  function Kept(offers: seq<Offer>, deadline: Option<real>): (r: seq<bool>)
    ensures |r| == |offers|
  {
    if offers == [] then []
    else
      var n := |offers| - 1;
      var before := Kept(offers[..n], deadline);
      before + [offers[n].dst.Some? && Within(ChosenTotal(Costs(offers[..n]), before) + offers[n].cost, deadline)]
  }

  lemma TotalAppend(values: seq<real>, chosen: seq<bool>, v: real, keep: bool)
    requires |values| == |chosen|
    ensures ChosenTotal(values + [v], chosen + [keep]) == ChosenTotal(values, chosen) + if keep then v else 0.0
  {
    assert (values + [v])[..|values|] == values && (chosen + [keep])[..|chosen|] == chosen;
  }

  ghost predicate CostsNonNegative(offers: seq<Offer>) {
    forall i :: 0 <= i < |offers| ==> offers[i].cost >= 0.0
  }

  lemma CostsPrefix(offers: seq<Offer>, n: nat)
    requires n <= |offers|
    ensures Costs(offers)[..n] == Costs(offers[..n]) && Priorities(offers)[..n] == Priorities(offers[..n])
  {
  }

  lemma LastApart(offers: seq<Offer>, deadline: Option<real>)
    requires offers != []
    ensures var n := |offers| - 1;
      && Costs(offers) == Costs(offers[..n]) + [offers[n].cost]
      && Priorities(offers) == Priorities(offers[..n]) + [offers[n].priority]
      && Kept(offers, deadline) == Kept(offers[..n], deadline)
         + [offers[n].dst.Some? && Within(Spent(offers[..n], deadline) + offers[n].cost, deadline)]
  {
  }

  function Spent(offers: seq<Offer>, deadline: Option<real>): real {
    ChosenTotal(Costs(offers), Kept(offers, deadline))
  }

  lemma SpentStep(offers: seq<Offer>, deadline: Option<real>)
    requires offers != []
    ensures var n := |offers| - 1;
      Spent(offers, deadline)
        == Spent(offers[..n], deadline) + if Kept(offers, deadline)[n] then offers[n].cost else 0.0
  {
    hide Kept, Costs, Priorities, ChosenTotal;
    var n := |offers| - 1;
    LastApart(offers, deadline);
    TotalAppend(Costs(offers[..n]), Kept(offers[..n], deadline), offers[n].cost, Kept(offers, deadline)[n]);
  }

  /** The budget is respected, and no offer left out for its cost would still fit. */
  lemma {:induction false} GreedyIsMaximal(offers: seq<Offer>, deadline: Option<real>)
    requires CostsNonNegative(offers)
    ensures Spent(offers, deadline) >= 0.0
    ensures true in Kept(offers, deadline) ==> Within(Spent(offers, deadline), deadline)
    ensures forall i :: 0 <= i < |offers| && offers[i].dst.Some? && !Kept(offers, deadline)[i] ==>
      !Within(Spent(offers, deadline) + offers[i].cost, deadline)
  {
    hide Kept, Spent;
    if offers != [] {
      var n := |offers| - 1;
      GreedyIsMaximal(offers[..n], deadline);
      LastApart(offers, deadline);
      SpentStep(offers, deadline);
      forall i | 0 <= i < n && offers[i].dst.Some? && !Kept(offers, deadline)[i]
        ensures !Within(Spent(offers, deadline) + offers[i].cost, deadline)
      {
        assert offers[..n][i] == offers[i] && !Kept(offers[..n], deadline)[i];
      }
    } else {
      assert Spent([], deadline) == 0.0 by {
        EmptySpent(deadline);
      }
    }
  }

  lemma EmptySpent(deadline: Option<real>)
    ensures Spent([], deadline) == 0.0
  {
  }

  // ---------------------------------------------------------------- equal costs: the best choice

  function Count(chosen: seq<bool>): nat {
    if chosen == [] then 0
    else Count(chosen[..|chosen| - 1]) + if chosen[|chosen| - 1] then 1 else 0
  }

  ghost predicate AllCost(offers: seq<Offer>, c: real) {
    forall i :: 0 <= i < |offers| ==> offers[i].cost == c
  }

  lemma {:induction false} TotalOfEqualCosts(offers: seq<Offer>, chosen: seq<bool>, c: real)
    requires |chosen| == |offers| && AllCost(offers, c)
    ensures ChosenTotal(Costs(offers), chosen) == Times(c, Count(chosen))
  {
    hide Times;
    TimesNext(c, 0);
    if offers != [] {
      var n := |offers| - 1;
      TotalOfEqualCosts(offers[..n], chosen[..n], c);
      CostsPrefix(offers, n);
      TimesNext(c, Count(chosen[..n]));
    }
  }

  ghost predicate DearestFirst(offers: seq<Offer>) {
    && (forall i :: 0 <= i < |offers| ==> offers[i].priority >= 0.0)
    && (forall i, j :: 0 <= i < j < |offers| ==> offers[i].priority >= offers[j].priority)
  }

  /** The sum of the first k priorities. */
  function Leading(offers: seq<Offer>, k: nat): real
    requires k <= |offers|
  {
    if k == 0 then 0.0 else Leading(offers, k - 1) + offers[k - 1].priority
  }

  lemma {:induction false} LeadingPrefix(offers: seq<Offer>, n: nat, k: nat)
    requires k <= n <= |offers|
    ensures Leading(offers[..n], k) == Leading(offers, k)
  {
    if k > 0 {
      LeadingPrefix(offers, n, k - 1);
    }
  }

  lemma {:induction false} LeadingGrows(offers: seq<Offer>, j: nat, k: nat)
    requires DearestFirst(offers) && j <= k <= |offers|
    ensures Leading(offers, j) <= Leading(offers, k)
  {
    if j < k {
      LeadingGrows(offers, j, k - 1);
    }
  }

  lemma {:induction false} CountBound(chosen: seq<bool>)
    ensures Count(chosen) <= |chosen|
  {
    if chosen != [] {
      CountBound(chosen[..|chosen| - 1]);
    }
  }

  /** No choice of m offers is worth more than the m dearest. */
  lemma {:induction false} LeadingIsBest(offers: seq<Offer>, chosen: seq<bool>)
    requires |chosen| == |offers| && DearestFirst(offers)
    ensures Count(chosen) <= |offers|
    ensures ChosenTotal(Priorities(offers), chosen) <= Leading(offers, Count(chosen))
  {
    if offers != [] {
      var n := |offers| - 1;
      LeadingIsBest(offers[..n], chosen[..n]);
      CostsPrefix(offers, n);
      var m := Count(chosen[..n]);
      LeadingPrefix(offers, n, m);
    }
  }

  ghost predicate AllPlaced(offers: seq<Offer>) {
    forall i :: 0 <= i < |offers| ==> offers[i].dst.Some?
  }

  /** With equal costs, exactly the dearest offers are kept, as many as fit. */
  lemma {:induction false} KeptIsPrefix(offers: seq<Offer>, deadline: Option<real>, c: real)
    requires AllCost(offers, c) && c >= 0.0 && AllPlaced(offers)
    ensures ChosenTotal(Priorities(offers), Kept(offers, deadline)) == Leading(offers, KeptCount(offers, deadline))
    ensures KeptCount(offers, deadline) < |offers| ==> !Within(Times(c, KeptCount(offers, deadline) + 1), deadline)
  {
    hide Times, Kept, ChosenTotal, Leading, Costs, Priorities, Count, KeptCount;
    if offers != [] {
      var n := |offers| - 1;
      KeptIsPrefix(offers[..n], deadline, c);
      KeptStep(offers, deadline);
      var k := KeptCount(offers[..n], deadline);
      KeptTotal(offers[..n], deadline, c);
      TimesNext(c, k);
      LeadingPrefix(offers, n, k);
      LeadingStep(offers, k);
    } else {
      NothingKept(deadline);
    }
  }

  lemma NothingKept(deadline: Option<real>)
    ensures KeptCount([], deadline) == 0 && ChosenTotal(Priorities([]), Kept([], deadline)) == 0.0 == Leading([], 0)
  {
  }

  lemma KeptTotal(offers: seq<Offer>, deadline: Option<real>, c: real)
    requires AllCost(offers, c)
    ensures ChosenTotal(Costs(offers), Kept(offers, deadline)) == Times(c, KeptCount(offers, deadline))
  {
    TotalOfEqualCosts(offers, Kept(offers, deadline), c);
  }

  lemma LeadingStep(offers: seq<Offer>, k: nat)
    requires k < |offers|
    ensures Leading(offers, k + 1) == Leading(offers, k) + offers[k].priority
  {
  }

  /** How the last offer changes the selection. */
  lemma KeptStep(offers: seq<Offer>, deadline: Option<real>)
    requires offers != []
    ensures var n := |offers| - 1;
      var keep := offers[n].dst.Some? && Within(ChosenTotal(Costs(offers[..n]), Kept(offers[..n], deadline)) + offers[n].cost, deadline);
      && KeptCount(offers, deadline) == KeptCount(offers[..n], deadline) + (if keep then 1 else 0)
      && ChosenTotal(Priorities(offers), Kept(offers, deadline))
         == ChosenTotal(Priorities(offers[..n]), Kept(offers[..n], deadline)) + (if keep then offers[n].priority else 0.0)
  {
    hide Kept, Costs, Priorities, ChosenTotal, Count;
    var n := |offers| - 1;
    LastApart(offers, deadline);
    TotalAppend(Priorities(offers[..n]), Kept(offers[..n], deadline), offers[n].priority, Kept(offers, deadline)[n]);
    CountAppend(Kept(offers[..n], deadline), Kept(offers, deadline)[n]);
  }

  lemma CountAppend(chosen: seq<bool>, keep: bool)
    ensures Count(chosen + [keep]) == Count(chosen) + if keep then 1 else 0
  {
    assert (chosen + [keep])[..|chosen|] == chosen;
  }

  function KeptCount(offers: seq<Offer>, deadline: Option<real>): (k: nat)
    ensures k <= |offers|
  {
    CountBound(Kept(offers, deadline));
    Count(Kept(offers, deadline))
  }

  /** When all moves cost the same, no selection that meets the deadline is worth more than the one kept. */
  lemma GreedyIsOptimal(offers: seq<Offer>, deadline: Option<real>, c: real, other: seq<bool>)
    requires AllCost(offers, c) && c >= 0.0 && AllPlaced(offers) && DearestFirst(offers)
    requires |other| == |offers| && Within(ChosenTotal(Costs(offers), other), deadline)
    ensures ChosenTotal(Priorities(offers), other) <= ChosenTotal(Priorities(offers), Kept(offers, deadline))
  {
    hide Times, Kept;
    var k, m := KeptCount(offers, deadline), Count(other);
    KeptIsPrefix(offers, deadline, c);
    TotalOfEqualCosts(offers, other, c);
    LeadingIsBest(offers, other);
    if m > k {
      TimesMonotone(c, k + 1, m);
    }
    LeadingGrows(offers, if m <= k then m else k, k);
  }

  // ---------------------------------------------------------------- spreading over targets

  datatype Target = Target(nodeId: NodeId, load: real, memoryFree: int)

  function Free(t: Target): (f: nat)
    ensures f >= 1
  {
    if t.memoryFree > 1 then t.memoryFree else 1
  }

  function Share(bytes: nat, free: nat): real
    requires free >= 1
  {
    bytes as real / free as real
  }

  lemma ShareAdds(a: nat, b: nat, largest: nat, free: nat)
    requires free >= 1 && b <= largest
    ensures Share(a + b, free) == Share(a, free) + Share(b, free)
    ensures 0.0 <= Share(b, free) <= Share(largest, free)
  {
    ShareIsProduct(a + b, free);
    ShareIsProduct(a, free);
    ShareIsProduct(b, free);
    ShareIsProduct(largest, free);
    var r := 1.0 / free as real;
    assert (a + b) as real * r == a as real * r + b as real * r;
    assert (largest as real - b as real) * r >= 0.0;
    assert b as real * r >= 0.0;
  }

  lemma ShareIsProduct(a: nat, free: nat)
    requires free >= 1
    ensures Share(a, free) == a as real * (1.0 / free as real)
    ensures 1.0 / free as real > 0.0
  {
  }

  type Assigned = map<NodeId, nat>

  function BytesOf(given: Assigned, n: NodeId): nat {
    if n in given then given[n] else 0
  }

  /** Heartbeat load plus what this plan has already sent there, relative to the free memory. */
  function Score(t: Target, given: Assigned): real {
    t.load + Share(BytesOf(given, t.nodeId), Free(t))
  }

  /** The first target of lowest score among the first n. */
  function Best(targets: seq<Target>, given: Assigned, n: nat): (i: nat)
    requires 0 < n <= |targets|
    ensures i < n
    ensures forall j :: 0 <= j < n ==> Score(targets[i], given) <= Score(targets[j], given)
    ensures forall j :: 0 <= j < i ==> Score(targets[i], given) < Score(targets[j], given)
  {
    if n == 1 then 0
    else
      var i := Best(targets, given, n - 1);
      if Score(targets[n - 1], given) < Score(targets[i], given) then n - 1 else i
  }

  function Charged(targets: seq<Target>, given: Assigned, size: nat): Assigned
    requires targets != []
  {
    var t := targets[Best(targets, given, |targets|)];
    given[t.nodeId := BytesOf(given, t.nodeId) + size]
  }

  /** The ledger after the first n blocks. A block is charged to its target even if it does not fit the budget afterwards. */
  function AssignedAfter(targets: seq<Target>, sizes: seq<nat>, n: nat): Assigned
    requires targets != [] && n <= |sizes|
  {
    if n == 0 then map[] else Charged(targets, AssignedAfter(targets, sizes, n - 1), sizes[n - 1])
  }

  ghost predicate DistinctTargets(targets: seq<Target>) {
    forall i, j :: 0 <= i < j < |targets| ==> targets[i].nodeId != targets[j].nodeId
  }

  /** Any target that got a block scores at most the lowest score plus one largest block. */
  ghost predicate ListScheduled(targets: seq<Target>, given: Assigned, largest: nat) {
    forall i, j :: 0 <= i < |targets| && 0 <= j < |targets| && targets[i].nodeId in given ==>
      Score(targets[i], given) <= Score(targets[j], given) + Share(largest, Free(targets[i]))
  }

  lemma ChargingKeepsBound(targets: seq<Target>, given: Assigned, size: nat, largest: nat)
    requires targets != [] && DistinctTargets(targets) && size <= largest
    requires ListScheduled(targets, given, largest)
    ensures ListScheduled(targets, Charged(targets, given, size), largest)
  {
    hide Share;
    var b := Best(targets, given, |targets|);
    var after := Charged(targets, given, size);
    forall j | 0 <= j < |targets|
      ensures Score(targets[j], after) >= Score(targets[j], given)
      ensures j != b ==> Score(targets[j], after) == Score(targets[j], given)
    {
      ShareAdds(BytesOf(given, targets[j].nodeId), size, largest, Free(targets[j]));
    }
    ShareAdds(BytesOf(given, targets[b].nodeId), size, largest, Free(targets[b]));
    ShareAdds(0, largest, largest, Free(targets[b]));
    assert Score(targets[b], after) <= Score(targets[b], given) + Share(largest, Free(targets[b]));
    forall i, j | 0 <= i < |targets| && 0 <= j < |targets| && targets[i].nodeId in after
      ensures Score(targets[i], after) <= Score(targets[j], after) + Share(largest, Free(targets[i]))
    {
      if i == b {
        assert Score(targets[b], given) <= Score(targets[j], given);
      } else {
        assert targets[i].nodeId in given;
      }
    }
  }

  /** List scheduling: at the end of a decision every loaded target is within one largest block of the best one. */
  lemma {:induction false} TargetsBalanced(targets: seq<Target>, sizes: seq<nat>, n: nat, largest: nat)
    requires targets != [] && DistinctTargets(targets) && n <= |sizes|
    requires forall k :: 0 <= k < |sizes| ==> sizes[k] <= largest
    ensures ListScheduled(targets, AssignedAfter(targets, sizes, n), largest)
  {
    hide Charged, Score, ListScheduled;
    if n > 0 {
      TargetsBalanced(targets, sizes, n - 1, largest);
      ChargingKeepsBound(targets, AssignedAfter(targets, sizes, n - 1), sizes[n - 1], largest);
    } else {
      NothingAssigned(targets, largest);
    }
  }

  lemma NothingAssigned(targets: seq<Target>, largest: nat)
    ensures ListScheduled(targets, map[], largest)
  {
  }

  lemma ShareReflects(a: nat, b: nat, largest: nat, free: nat)
    requires free >= 1 && Share(a, free) <= Share(b, free) + Share(largest, free)
    ensures a <= b + largest
  {
    ShareAdds(b, largest, largest, free);
    if a > b + largest {
      ShareGrows(a, b + largest, free);
    }
  }

  lemma ShareGrows(a: nat, b: nat, free: nat)
    requires free >= 1 && a > b
    ensures Share(a, free) > Share(b, free)
  {
    ShareIsProduct(a, free);
    ShareIsProduct(b, free);
    assert (a as real - b as real) * (1.0 / free as real) > 0.0;
  }

  /** Between equally loaded targets with equally much memory, the bytes given differ by at most one largest block. */
  lemma EqualTargetsDifferByOneBlock(targets: seq<Target>, sizes: seq<nat>, largest: nat, i: nat, j: nat)
    requires DistinctTargets(targets) && i < |targets| && j < |targets|
    requires forall k :: 0 <= k < |sizes| ==> sizes[k] <= largest
    requires targets[i].load == targets[j].load && targets[i].memoryFree == targets[j].memoryFree
    ensures var a := AssignedAfter(targets, sizes, |sizes|);
      BytesOf(a, targets[i].nodeId) <= BytesOf(a, targets[j].nodeId) + largest
  {
    TargetsBalanced(targets, sizes, |sizes|, largest);
    var a := AssignedAfter(targets, sizes, |sizes|);
    if targets[i].nodeId in a {
      ShareReflects(BytesOf(a, targets[i].nodeId), BytesOf(a, targets[j].nodeId), largest, Free(targets[i]));
    }
  }
}
