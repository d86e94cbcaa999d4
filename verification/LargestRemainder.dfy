/** The largest-remainder method over given fractional quotas: what is rounded up, and why it is the best choice. */
module LargestRemainder {
  import opened Products
  import opened Types
  import opened Sorting

  ghost predicate DistinctIds(ids: seq<NodeId>) {
    forall i, j :: 0 <= i < j < |ids| ==> ids[i] != ids[j]
  }

  function Frac(q: real): (f: real)
    ensures 0.0 <= f < 1.0
  {
    q - q.Floor as real
  }

  // ---------------------------------------------------------------- sums

  function Sum(a: seq<int>): int {
    if a == [] then 0 else Sum(a[..|a| - 1]) + a[|a| - 1]
  }

  function SumReal(a: seq<real>): real {
    if a == [] then 0.0 else SumReal(a[..|a| - 1]) + a[|a| - 1]
  }

  function Floors(q: seq<real>): (a: seq<int>)
    ensures |a| == |q|
  {
    seq(|q|, i requires 0 <= i < |q| => q[i].Floor)
  }

  lemma {:induction false} FloorsSum(q: seq<real>)
    ensures SumReal(q) - |q| as real <= Sum(Floors(q)) as real <= SumReal(q)
    ensures q != [] ==> SumReal(q) - |q| as real < Sum(Floors(q)) as real
  {
    if q != [] {
      var n := |q| - 1;
      FloorsSum(q[..n]);
      assert Floors(q)[..n] == Floors(q[..n]);
    }
  }

  lemma {:induction false} SumOfSums(a: seq<int>, b: seq<int>, c: seq<int>)
    requires |a| == |b| == |c|
    requires forall i :: 0 <= i < |a| ==> c[i] == a[i] + b[i]
    ensures Sum(c) == Sum(a) + Sum(b)
  {
    if a != [] {
      var n := |a| - 1;
      SumOfSums(a[..n], b[..n], c[..n]);
    }
  }

  lemma {:induction false} SumWithOneMore(a: seq<int>, b: seq<int>, k: nat)
    requires |a| == |b| && k < |a|
    requires b[k] == a[k] + 1
    requires forall i :: 0 <= i < |a| && i != k ==> b[i] == a[i]
    ensures Sum(b) == Sum(a) + 1
  {
    var n := |a| - 1;
    if k == n {
      assert a[..n] == b[..n];
    } else {
      SumWithOneMore(a[..n], b[..n], k);
    }
  }

  lemma {:induction false} SumOfZeros(a: seq<int>)
    requires forall i :: 0 <= i < |a| ==> a[i] == 0
    ensures Sum(a) == 0
  {
    if a != [] {
      SumOfZeros(a[..|a| - 1]);
    }
  }

  lemma {:induction false} SumsOrdered(q: seq<real>, a: seq<int>)
    requires |q| == |a|
    requires forall i :: 0 <= i < |q| ==> a[i] as real >= q[i]
    ensures Sum(a) as real >= SumReal(q)
  {
    if q != [] {
      SumsOrdered(q[..|q| - 1], a[..|q| - 1]);
    }
  }

  lemma {:induction false} SumsOrderedStrictly(q: seq<real>, a: seq<int>, k: nat)
    requires |q| == |a| && k < |q|
    requires forall i :: 0 <= i < |q| ==> a[i] as real >= q[i]
    requires a[k] as real > q[k]
    ensures Sum(a) as real > SumReal(q)
  {
    var n := |q| - 1;
    if k < n {
      SumsOrderedStrictly(q[..n], a[..n], k);
    } else {
      SumsOrdered(q[..n], a[..n]);
    }
  }

  // ---------------------------------------------------------------- the split

  type Item = (NodeId, real)

  predicate FracGe(x: Item, y: Item) {
    x.1 >= y.1
  }

  /** Ids with their fractional parts, in node order. */
  function Items(ids: seq<NodeId>, q: seq<real>): (r: seq<Item>)
    requires |ids| == |q|
    ensures |r| == |ids|
  {
    seq(|ids|, i requires 0 <= i < |ids| => (ids[i], Frac(q[i])))
  }

  function ByFraction(ids: seq<NodeId>, q: seq<real>): (r: seq<Item>)
    requires |ids| == |q|
    ensures |r| == |ids|
  {
    Sort(Items(ids, q), FracGe)
  }

  function Remaining(q: seq<real>, total: nat): int {
    total - Sum(Floors(q))
  }

  /** The quotas of a split add up to the layers there are. */
  ghost predicate Fair(ids: seq<NodeId>, q: seq<real>, total: nat) {
    && |ids| == |q|
    && ids != []
    && DistinctIds(ids)
    && SumReal(q) == total as real
    && forall i :: 0 <= i < |q| ==> q[i] >= 0.0
  }

  ghost predicate IsIn(n: NodeId, chosen: seq<Item>) {
    exists x :: x in chosen && x.0 == n
  }

  lemma RemainingFits(ids: seq<NodeId>, q: seq<real>, total: nat)
    requires Fair(ids, q, total)
    ensures 0 <= Remaining(q, total) < |ids|
  {
    FloorsSum(q);
  }

  /** The node gets one layer more: it is among the first `remaining` in order of falling fractional part. */
  ghost predicate RoundedUp(ids: seq<NodeId>, q: seq<real>, total: nat, i: nat)
    requires Fair(ids, q, total) && i < |ids|
  {
    RemainingFits(ids, q, total);
    IsIn(ids[i], ByFraction(ids, q)[..Remaining(q, total)])
  }

  ghost function Shares(ids: seq<NodeId>, q: seq<real>, total: nat): (a: seq<int>)
    requires Fair(ids, q, total)
    ensures |a| == |ids|
  {
    seq(|ids|, i requires 0 <= i < |ids| => q[i].Floor + if RoundedUp(ids, q, total, i) then 1 else 0)
  }

  lemma ByFractionOrder(ids: seq<NodeId>, q: seq<real>)
    requires |ids| == |q| && DistinctIds(ids)
    ensures var s := ByFraction(ids, q);
      && SortedBy(s, FracGe)
      && (forall i, j :: 0 <= i < j < |s| ==> s[i].0 != s[j].0)
      && (forall x :: x in s <==> x in Items(ids, q))
  {
    var items := Items(ids, q);
    var s := ByFraction(ids, q);
    assert TotalPreorder(FracGe);
    SortSorts(items, FracGe);
    MembersOfEqualMultisets(s, items);
    forall i, j | 0 <= i < j < |s|
      ensures s[i].0 != s[j].0
    {
      if s[i] == s[j] {
        CountAtLeastTwo(s, i, j);
        var a, b := TwoPositions(items, s[i]);
        assert false;
      } else {
        assert s[i] in items && s[j] in items;
        var a :| 0 <= a < |items| && items[a] == s[i];
        var b :| 0 <= b < |items| && items[b] == s[j];
        assert a < b || b < a;
      }
    }
  }

  /** Every node rounded up has at least the fractional part of every node rounded down. */
  lemma RoundedUpFirst(ids: seq<NodeId>, q: seq<real>, total: nat, i: nat, j: nat)
    requires Fair(ids, q, total) && i < |ids| && j < |ids|
    requires RoundedUp(ids, q, total, i) && !RoundedUp(ids, q, total, j)
    ensures Frac(q[i]) >= Frac(q[j])
  {
    RemainingFits(ids, q, total);
    ByFractionOrder(ids, q);
    var items := Items(ids, q);
    var s := ByFraction(ids, q);
    var k := Remaining(q, total);
    assert items[j] in s && items[i] in s;
    var b :| 0 <= b < |s| && s[b] == items[j];
    assert forall c :: 0 <= c < k ==> s[c] in s[..k];
    var x :| x in s[..k] && x.0 == ids[i];
    var a :| 0 <= a < k && s[..k][a] == x;
    var a' :| 0 <= a' < |s| && s[a'] == items[i];
    assert s[a].0 == s[a'].0;
    assert FracGe(s[a], s[b]);
  }

  /** Between equal fractional parts the node that comes first is rounded up first. */
  lemma TieGoesToEarlier(ids: seq<NodeId>, q: seq<real>, total: nat, i: nat, j: nat)
    requires Fair(ids, q, total) && i < j < |ids| && Frac(q[i]) == Frac(q[j]) && RoundedUp(ids, q, total, j)
    ensures RoundedUp(ids, q, total, i)
  {
    RemainingFits(ids, q, total);
    ByFractionOrder(ids, q);
    var items, s, k := Items(ids, q), ByFraction(ids, q), Remaining(q, total);
    SortKeepsOrder(items, FracGe, i, j);
    var a, b :| 0 <= a < b < |s| && s[a] == items[i] && s[b] == items[j];
    var x :| x in s[..k] && x.0 == ids[j];
    var c :| 0 <= c < k && s[..k][c] == x;
    assert s[c].0 == s[b].0;
    assert s[a] == s[..k][a];
  }

  // ---------------------------------------------------------------- the sum is exact

  ghost function Bonus(ids: seq<NodeId>, chosen: seq<Item>): (a: seq<int>)
    ensures |a| == |ids|
  {
    seq(|ids|, i requires 0 <= i < |ids| => if IsIn(ids[i], chosen) then 1 else 0)
  }

  lemma {:induction false} BonusSum(ids: seq<NodeId>, chosen: seq<Item>)
    requires DistinctIds(ids)
    requires forall i, j :: 0 <= i < j < |chosen| ==> chosen[i].0 != chosen[j].0
    requires forall x :: x in chosen ==> x.0 in ids
    ensures Sum(Bonus(ids, chosen)) == |chosen|
  {
    if chosen == [] {
      SumOfZeros(Bonus(ids, chosen));
    } else {
      var m := |chosen| - 1;
      var rest, x := chosen[..m], chosen[m];
      assert chosen == rest + [x];
      BonusSum(ids, rest);
      assert x in chosen;
      var k :| 0 <= k < |ids| && ids[k] == x.0;
      assert !IsIn(x.0, rest);
      forall i | 0 <= i < |ids| && i != k
        ensures IsIn(ids[i], chosen) <==> IsIn(ids[i], rest)
      {
        assert ids[i] != x.0;
      }
      SumWithOneMore(Bonus(ids, rest), Bonus(ids, chosen), k);
    }
  }

  /** The shares add up to the number of layers, exactly. */
  lemma SharesSum(ids: seq<NodeId>, q: seq<real>, total: nat)
    requires Fair(ids, q, total)
    ensures Sum(Shares(ids, q, total)) == total
  {
    RemainingFits(ids, q, total);
    ByFractionOrder(ids, q);
    var chosen := ByFraction(ids, q)[..Remaining(q, total)];
    forall x | x in chosen
      ensures x.0 in ids
    {
      assert x in Items(ids, q);
    }
    BonusSum(ids, chosen);
    SumOfSums(Floors(q), Bonus(ids, chosen), Shares(ids, q, total));
  }

  // ---------------------------------------------------------------- quota rule and monotonicity

  /** A node whose quota is whole is never rounded up. */
  lemma NoWholeQuotaRoundedUp(ids: seq<NodeId>, q: seq<real>, total: nat, i: nat)
    requires Fair(ids, q, total) && i < |ids| && Frac(q[i]) == 0.0
    ensures !RoundedUp(ids, q, total, i)
  {
    if RoundedUp(ids, q, total, i) {
      var a := Shares(ids, q, total);
      forall j | 0 <= j < |ids|
        ensures a[j] as real >= q[j]
      {
        if !RoundedUp(ids, q, total, j) {
          RoundedUpFirst(ids, q, total, i, j);
        }
      }
      SumsOrderedStrictly(q, a, i);
      SharesSum(ids, q, total);
    }
  }

  /** The quota rule: each share is the floor or the ceiling of its quota, so less than one layer away from it. */
  lemma SharesWithinQuota(ids: seq<NodeId>, q: seq<real>, total: nat, i: nat)
    requires Fair(ids, q, total) && i < |ids|
    ensures var a := Shares(ids, q, total)[i];
      && a >= 0
      && (a == q[i].Floor || a == q[i].Floor + 1)
      && -1.0 < a as real - q[i] < 1.0
  {
    if Frac(q[i]) == 0.0 {
      NoWholeQuotaRoundedUp(ids, q, total, i);
    }
  }

  /** A larger quota never gets the smaller share. */
  lemma LargerQuotaNeverLess(ids: seq<NodeId>, q: seq<real>, total: nat, i: nat, j: nat)
    requires Fair(ids, q, total) && i < |ids| && j < |ids| && q[i] > q[j]
    ensures Shares(ids, q, total)[i] >= Shares(ids, q, total)[j]
  {
    if !RoundedUp(ids, q, total, i) && RoundedUp(ids, q, total, j) {
      RoundedUpFirst(ids, q, total, j, i);
    }
  }

  // ---------------------------------------------------------------- optimality

  function Abs(x: real): real {
    if x < 0.0 then -x else x
  }

  /** How far an allocation is from the quotas, over all nodes. */
  function Deviation(q: seq<real>, a: seq<int>): real
    requires |q| == |a|
  {
    if q == [] then 0.0
    else
      var n := |q| - 1;
      Deviation(q[..n], a[..n]) + Abs(a[n] as real - q[n])
  }

  lemma ProductNonNegative(x: real, y: real)
    requires x >= 0.0 && y >= 0.0
    ensures x * y >= 0.0
  {
  }

  /** Rounded down below the threshold t, rounded up above it. */
  ghost predicate RoundedAt(q: real, a: int, t: real) {
    || (a == q.Floor && Frac(q) <= t)
    || (a == q.Floor + 1 && Frac(q) >= t)
  }

  /** 1 - 2t is a subgradient of |x - q| at a, over the integers x. */
  lemma Subgradient(q: real, a: int, b: int, t: real)
    requires 0.0 <= t <= 1.0 && RoundedAt(q, a, t)
    ensures Abs(b as real - q) >= Abs(a as real - q) + Times(1.0 - 2.0 * t, b - a)
  {
    var d := (b - a) as real;
    if b > a {
      ProductNonNegative(t, d - 1.0);
      ProductNonNegative(1.0 - t, d);
      assert t * (d - 1.0) == t * d - t;
      assert (1.0 - 2.0 * t) * d == d - 2.0 * (t * d);
      UpwardStep(q, a, b, t, t * d);
    } else if b < a {
      ProductNonNegative(1.0 - t, -d - 1.0);
      assert (1.0 - t) * (-d - 1.0) == -d - 1.0 + t * d + t;
      ProductNonNegative(t, -d);
      assert (1.0 - 2.0 * t) * d == d - 2.0 * (t * d);
      DownwardStep(q, a, b, t, t * d);
    }
  }

  lemma UpwardStep(q: real, a: int, b: int, t: real, td: real)
    requires 0.0 <= t <= 1.0 && RoundedAt(q, a, t) && b > a
    requires t <= td <= (b - a) as real
    ensures Abs(b as real - q) >= Abs(a as real - q) + (b - a) as real - 2.0 * td
  {
  }

  lemma DownwardStep(q: real, a: int, b: int, t: real, td: real)
    requires 0.0 <= t <= 1.0 && RoundedAt(q, a, t) && b < a
    requires (b - a) as real + 1.0 - t <= td <= 0.0
    ensures Abs(b as real - q) >= Abs(a as real - q) + (b - a) as real - 2.0 * td
  {
  }

  /** The subgradient gains, node by node. */
  function Gains(a: seq<int>, b: seq<int>, slope: real): (g: seq<real>)
    requires |a| == |b|
    ensures |g| == |a|
  {
    seq(|a|, i requires 0 <= i < |a| => Times(slope, b[i] - a[i]))
  }

  lemma {:induction false} GainsSum(a: seq<int>, b: seq<int>, slope: real)
    requires |a| == |b|
    ensures SumReal(Gains(a, b, slope)) == Times(slope, Sum(b) - Sum(a))
  {
    if a != [] {
      var n := |a| - 1;
      GainsSum(a[..n], b[..n], slope);
      assert Gains(a, b, slope)[..n] == Gains(a[..n], b[..n], slope);
      TimesDistributes(slope, Sum(b[..n]) - Sum(a[..n]), b[n] - a[n]);
      assert Sum(b) - Sum(a) == Sum(b[..n]) - Sum(a[..n]) + (b[n] - a[n]);
    }
  }

  lemma {:induction false} DeviationGains(q: seq<real>, a: seq<int>, b: seq<int>, gains: seq<real>)
    requires |q| == |a| == |b| == |gains|
    requires forall i :: 0 <= i < |q| ==> Abs(b[i] as real - q[i]) >= Abs(a[i] as real - q[i]) + gains[i]
    ensures Deviation(q, b) >= Deviation(q, a) + SumReal(gains)
  {
    if q != [] {
      var n := |q| - 1;
      DeviationGains(q[..n], a[..n], b[..n], gains[..n]);
    }
  }

  /** One threshold separates the first m nodes rounded down from those rounded up. */
  lemma {:induction false} Threshold(ids: seq<NodeId>, q: seq<real>, total: nat, m: nat) returns (t: real)
    requires Fair(ids, q, total) && m <= |ids|
    ensures 0.0 <= t <= 1.0
    ensures forall i :: 0 <= i < m ==>
      if RoundedUp(ids, q, total, i) then Frac(q[i]) >= t else Frac(q[i]) <= t
    ensures t == 0.0 || exists j :: 0 <= j < m && !RoundedUp(ids, q, total, j) && Frac(q[j]) == t
  {
    if m == 0 {
      t := 0.0;
    } else {
      t := Threshold(ids, q, total, m - 1);
      if RoundedUp(ids, q, total, m - 1) {
        if t != 0.0 {
          var j :| 0 <= j < m - 1 && !RoundedUp(ids, q, total, j) && Frac(q[j]) == t;
          RoundedUpFirst(ids, q, total, m - 1, j);
        }
      } else if Frac(q[m - 1]) > t {
        t := Frac(q[m - 1]);
        forall i | 0 <= i < m && RoundedUp(ids, q, total, i)
          ensures Frac(q[i]) >= t
        {
          RoundedUpFirst(ids, q, total, i, m - 1);
        }
      }
    }
  }

  lemma SharesThreshold(ids: seq<NodeId>, q: seq<real>, total: nat) returns (t: real)
    requires Fair(ids, q, total)
    ensures 0.0 <= t <= 1.0
    ensures forall i :: 0 <= i < |q| ==> RoundedAt(q[i], Shares(ids, q, total)[i], t)
  {
    t := Threshold(ids, q, total, |ids|);
    forall i | 0 <= i < |q|
      ensures RoundedAt(q[i], Shares(ids, q, total)[i], t)
    {
      assert if RoundedUp(ids, q, total, i) then Frac(q[i]) >= t else Frac(q[i]) <= t;
    }
  }

  lemma SubgradientsSupport(q: seq<real>, a: seq<int>, b: seq<int>, t: real, i: nat)
    requires |q| == |a| == |b| && i < |q|
    requires 0.0 <= t <= 1.0 && RoundedAt(q[i], a[i], t)
    ensures Abs(b[i] as real - q[i]) >= Abs(a[i] as real - q[i]) + Gains(a, b, 1.0 - 2.0 * t)[i]
  {
    Subgradient(q[i], a[i], b[i], t);
  }

  lemma RoundedIsOptimal(q: seq<real>, a: seq<int>, b: seq<int>, t: real)
    requires |q| == |a| == |b| && Sum(a) == Sum(b)
    requires 0.0 <= t <= 1.0 && forall i :: 0 <= i < |q| ==> RoundedAt(q[i], a[i], t)
    ensures Deviation(q, a) <= Deviation(q, b)
  {
    var slope := 1.0 - 2.0 * t;
    var gains := Gains(a, b, slope);
    assert SumReal(gains) == 0.0 by {
      GainsSum(a, b, slope);
      TimesZero(slope);
    }
    forall i | 0 <= i < |q|
      ensures Abs(b[i] as real - q[i]) >= Abs(a[i] as real - q[i]) + gains[i]
    {
      SubgradientsSupport(q, a, b, t, i);
    }
    DeviationGains(q, a, b, gains);
  }

  /** No integer allocation of the same number of layers is closer to the quotas. */
  lemma SharesOptimal(ids: seq<NodeId>, q: seq<real>, total: nat, b: seq<int>)
    requires Fair(ids, q, total)
    requires |b| == |ids| && Sum(b) == total
    ensures Deviation(q, Shares(ids, q, total)) <= Deviation(q, b)
  {
    var t := SharesThreshold(ids, q, total);
    SharesSum(ids, q, total);
    RoundedIsOptimal(q, Shares(ids, q, total), b, t);
  }
}
