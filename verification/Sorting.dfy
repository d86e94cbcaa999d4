/** The stable sort of the language runtime, as a function, with the facts its callers rely on. */
module Sorting {

  ghost predicate Total<T(!new)>(le: (T, T) -> bool) {
    forall x, y :: le(x, y) || le(y, x)
  }

  ghost predicate Transitive<T(!new)>(le: (T, T) -> bool) {
    forall x, y, z :: le(x, y) && le(y, z) ==> le(x, z)
  }

  ghost predicate TotalPreorder<T(!new)>(le: (T, T) -> bool) {
    Total(le) && Transitive(le)
  }

  ghost predicate SortedBy<T>(s: seq<T>, le: (T, T) -> bool) {
    forall i, j :: 0 <= i < j < |s| ==> le(s[i], s[j])
  }

  /** Places x before the first element that does not come strictly earlier. */
  function Insert<T>(x: T, s: seq<T>, le: (T, T) -> bool): (r: seq<T>)
    ensures |r| == |s| + 1
    ensures multiset(r) == multiset(s) + multiset{x}
  {
    if s == [] then [x]
    else if le(x, s[0]) then [x] + s
    else
      assert s == [s[0]] + s[1..];
      [s[0]] + Insert(x, s[1..], le)
  }

  function Sort<T>(s: seq<T>, le: (T, T) -> bool): (r: seq<T>)
    ensures |r| == |s|
    ensures multiset(r) == multiset(s)
  {
    if s == [] then []
    else
      assert s == [s[0]] + s[1..];
      Insert(s[0], Sort(s[1..], le), le)
  }

  lemma MembersOfEqualMultisets<T>(s: seq<T>, r: seq<T>)
    requires multiset(s) == multiset(r)
    ensures forall x :: x in s <==> x in r
  {
    forall x ensures x in s <==> x in r {
      assert x in s <==> x in multiset(s);
      assert x in r <==> x in multiset(r);
    }
  }

  lemma {:induction false} InsertKeepsSorted<T(!new)>(x: T, s: seq<T>, le: (T, T) -> bool)
    requires TotalPreorder(le)
    requires SortedBy(s, le)
    ensures SortedBy(Insert(x, s, le), le)
  {
    if s == [] {
    } else if le(x, s[0]) {
      assert forall j :: 0 <= j < |s| ==> le(x, s[j]);
    } else {
      InsertKeepsSorted(x, s[1..], le);
      var r := Insert(x, s[1..], le);
      forall y | y in r ensures le(s[0], y) {
        assert y in multiset(r);
        assert y == x || y in s[1..];
      }
    }
  }

  lemma {:induction false} SortSorts<T(!new)>(s: seq<T>, le: (T, T) -> bool)
    requires TotalPreorder(le)
    ensures SortedBy(Sort(s, le), le)
  {
    if s != [] {
      SortSorts(s[1..], le);
      InsertKeepsSorted(s[0], Sort(s[1..], le), le);
    }
  }

  ghost predicate InOrder<T>(s: seq<T>, x: T, y: T) {
    exists a, b :: 0 <= a < b < |s| && s[a] == x && s[b] == y
  }

  lemma {:induction false} InsertGoesBefore<T>(x: T, s: seq<T>, le: (T, T) -> bool, k: nat)
    requires k < |s| && le(x, s[k])
    ensures InOrder(Insert(x, s, le), x, s[k])
  {
    var r := Insert(x, s, le);
    if le(x, s[0]) {
      assert r[0] == x && r[k + 1] == s[k];
    } else {
      InsertGoesBefore(x, s[1..], le, k - 1);
      var a, b :| 0 <= a < b < |r| - 1 && r[1..][a] == x && r[1..][b] == s[k];
      assert r[a + 1] == x && r[b + 1] == s[k];
    }
  }

  lemma {:induction false} InsertKeepsOrder<T>(x: T, s: seq<T>, le: (T, T) -> bool, i: nat, j: nat)
    requires i < j < |s|
    ensures InOrder(Insert(x, s, le), s[i], s[j])
  {
    var r := Insert(x, s, le);
    if le(x, s[0]) {
      assert r[i + 1] == s[i] && r[j + 1] == s[j];
    } else if i == 0 {
      assert s[j] in multiset(s[1..]) by {
        assert s[j] == s[1..][j - 1];
      }
      assert r[1..] == Insert(x, s[1..], le);
      assert s[j] in multiset(Insert(x, s[1..], le));
      assert s[j] in r[1..];
      var b :| 0 <= b < |r| - 1 && r[1..][b] == s[j];
      assert r[0] == s[0] && r[b + 1] == s[j];
    } else {
      InsertKeepsOrder(x, s[1..], le, i - 1, j - 1);
      var a, b :| 0 <= a < b < |r| - 1 && r[1..][a] == s[i] && r[1..][b] == s[j];
      assert r[a + 1] == s[i] && r[b + 1] == s[j];
    }
  }

  /** Stability: what need not be exchanged keeps its order. */
  lemma {:induction false} SortKeepsOrder<T>(s: seq<T>, le: (T, T) -> bool, i: nat, j: nat)
    requires i < j < |s| && le(s[i], s[j])
    ensures InOrder(Sort(s, le), s[i], s[j])
  {
    var rest := Sort(s[1..], le);
    if i == 0 {
      assert s[j] in multiset(s[1..]) by {
        assert s[j] == s[1..][j - 1];
      }
      var k :| 0 <= k < |rest| && rest[k] == s[j];
      InsertGoesBefore(s[0], rest, le, k);
    } else {
      SortKeepsOrder(s[1..], le, i - 1, j - 1);
      var a, b :| 0 <= a < b < |rest| && rest[a] == s[i] && rest[b] == s[j];
      InsertKeepsOrder(s[0], rest, le, a, b);
    }
  }

  /** Sorting a sequence that is already in order changes nothing. */
  lemma {:induction false} SortOfSorted<T(!new)>(s: seq<T>, le: (T, T) -> bool)
    requires SortedBy(s, le)
    ensures Sort(s, le) == s
  {
    if s != [] {
      SortOfSorted(s[1..], le);
    }
  }

  /** An element at two positions is counted at least twice, and the other way round. */
  lemma CountAtLeastTwo<T>(s: seq<T>, i: nat, j: nat)
    requires i < j < |s| && s[i] == s[j]
    ensures multiset(s)[s[i]] >= 2
  {
    assert s == s[..j] + s[j..];
    assert s[i] in s[..j] by { assert s[..j][i] == s[i]; }
    assert s[j] in s[j..] by { assert s[j..][0] == s[j]; }
    assert multiset(s) == multiset(s[..j]) + multiset(s[j..]);
  }

  lemma TwoPositions<T>(s: seq<T>, x: T) returns (i: nat, j: nat)
    requires multiset(s)[x] >= 2
    ensures i < j < |s| && s[i] == s[j] == x
  {
    assert x in s;
    i :| 0 <= i < |s| && s[i] == x && x !in s[..i] by {
      FirstPosition(s, x);
    }
    assert s == s[..i] + [x] + s[i + 1..];
    assert multiset(s) == multiset(s[..i]) + multiset{x} + multiset(s[i + 1..]);
    assert x in s[i + 1..];
    var k :| 0 <= k < |s[i + 1..]| && s[i + 1..][k] == x;
    j := i + 1 + k;
  }

  lemma {:induction false} FirstPosition<T>(s: seq<T>, x: T)
    requires x in s
    ensures exists i :: 0 <= i < |s| && s[i] == x && x !in s[..i]
  {
    var n := |s| - 1;
    if x in s[..n] {
      FirstPosition(s[..n], x);
      var i :| 0 <= i < n && s[..n][i] == x && x !in s[..n][..i];
      assert s[..n][..i] == s[..i];
      assert s[i] == x && x !in s[..i];
    } else {
      assert s == s[..n] + [s[n]];
      assert s[n] == x && x !in s[..n];
    }
  }
}
