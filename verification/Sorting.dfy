/** Python's stable sort, as far as its callers here rely on it, and sums over sequences. */
module Sorting {

  /** Inserts `x` behind every element that need not follow it. */
  function Insert<T>(s: seq<T>, x: T, before: (T, T) -> bool): seq<T> {
    if s == [] then [x]
    else
      var init, last := s[..|s| - 1], s[|s| - 1];
      if before(x, last) then Insert(init, x, before) + [last] else s + [x]
  }

  /** `before(x, y)`: `x` has to come before `y`. Elements related neither way keep their order. */
  function StableSort<T>(s: seq<T>, before: (T, T) -> bool): seq<T> {
    if s == [] then [] else Insert(StableSort(s[..|s| - 1], before), s[|s| - 1], before)
  }

  function SumOf<T>(s: seq<T>, f: T -> int): int {
    if s == [] then 0 else SumOf(s[..|s| - 1], f) + f(s[|s| - 1])
  }

  function Filter<T>(s: seq<T>, p: T -> bool): seq<T> {
    if s == [] then []
    else
      var init, last := s[..|s| - 1], s[|s| - 1];
      if p(last) then Filter(init, p) + [last] else Filter(init, p)
  }

  /** The order compares ranks. */
  ghost predicate Ranks<T>(s: seq<T>, before: (T, T) -> bool, rank: T -> int) {
    forall x, y :: x in s && y in s ==> (before(x, y) <==> rank(x) < rank(y))
  }

  ghost predicate SortedBy<T>(s: seq<T>, rank: T -> int) {
    forall i, j :: 0 <= i < j < |s| ==> rank(s[i]) <= rank(s[j])
  }

  ghost predicate DistinctBy<T>(s: seq<T>, id: T -> int) {
    forall i, j :: 0 <= i < j < |s| ==> id(s[i]) != id(s[j])
  }

  function HasRank<T>(rank: T -> int, v: int): T -> bool {
    x => rank(x) == v
  }

  // ---- the same elements ----

  lemma {:induction false} InsertElements<T>(s: seq<T>, x: T, before: (T, T) -> bool)
    ensures multiset(Insert(s, x, before)) == multiset(s) + multiset{x}
  {
    if s != [] {
      var init, last := s[..|s| - 1], s[|s| - 1];
      assert s == init + [last];
      InsertElements(init, x, before);
    }
  }

  lemma {:induction false} SortElements<T>(s: seq<T>, before: (T, T) -> bool)
    ensures multiset(StableSort(s, before)) == multiset(s)
    ensures |StableSort(s, before)| == |s|
  {
    if s != [] {
      var init, last := s[..|s| - 1], s[|s| - 1];
      assert s == init + [last];
      SortElements(init, before);
      InsertElements(StableSort(init, before), last, before);
    }
    var t := StableSort(s, before);
    assert |t| == |multiset(t)| && |s| == |multiset(s)|;
  }

  lemma SortMember<T>(s: seq<T>, before: (T, T) -> bool, x: T)
    ensures x in StableSort(s, before) <==> x in s
  {
    SortElements(s, before);
    assert x in StableSort(s, before) <==> x in multiset(StableSort(s, before));
    assert x in s <==> x in multiset(s);
  }

  lemma SortedPartElements<T>(s: seq<T>, before: (T, T) -> bool)
    requires s != []
    ensures forall y :: y in StableSort(s[..|s| - 1], before) + [s[|s| - 1]] ==> y in s
    ensures forall y :: y in StableSort(s[..|s| - 1], before) ==> y in s
  {
    forall y | y in StableSort(s[..|s| - 1], before) ensures y in s {
      SortMember(s[..|s| - 1], before, y);
      assert y in s[..|s| - 1];
    }
  }

  // ---- sorted ----

  lemma SortedAppend<T>(s: seq<T>, x: T, rank: T -> int)
    requires SortedBy(s, rank) && (s != [] ==> rank(s[|s| - 1]) <= rank(x))
    ensures SortedBy(s + [x], rank)
  {
    forall i | 0 <= i < |s| ensures rank(s[i]) <= rank(x) {
      assert i < |s| - 1 ==> rank(s[i]) <= rank(s[|s| - 1]);
    }
  }

  /** The last element after an insertion is the old last one or the new one. */
  lemma InsertLast<T>(s: seq<T>, x: T, before: (T, T) -> bool)
    ensures var t := Insert(s, x, before); t != [] && t[|t| - 1] in s + [x]
  {
  }

  lemma {:induction false} InsertSorted<T>(s: seq<T>, x: T, before: (T, T) -> bool, rank: T -> int)
    requires forall y :: y in s ==> (before(x, y) <==> rank(x) < rank(y))
    requires SortedBy(s, rank)
    ensures SortedBy(Insert(s, x, before), rank)
  {
    if s != [] {
      var init, last := s[..|s| - 1], s[|s| - 1];
      assert last in s;
      if before(x, last) {
        InsertSorted(init, x, before, rank);
        InsertLast(init, x, before);
        var t := Insert(init, x, before);
        var y := t[|t| - 1];
        assert rank(y) <= rank(last) by {
          if y != x {
            var i :| 0 <= i < |init| && init[i] == y;
            assert s[i] == y;
          }
        }
        SortedAppend(t, last, rank);
      } else {
        SortedAppend(s, x, rank);
      }
    }
  }

  lemma {:induction false} SortSorted<T>(s: seq<T>, before: (T, T) -> bool, rank: T -> int)
    requires Ranks(s, before, rank)
    ensures SortedBy(StableSort(s, before), rank)
  {
    if s != [] {
      var init, last := s[..|s| - 1], s[|s| - 1];
      SortSorted(init, before, rank);
      SortedPartElements(s, before);
      assert last in s;
      InsertSorted(StableSort(init, before), last, before, rank);
    }
  }

  // ---- stable ----

  /** Elements of one rank come out in the order they went in. */
  lemma {:induction false} SortStable<T>(s: seq<T>, before: (T, T) -> bool, rank: T -> int, v: int)
    requires Ranks(s, before, rank)
    ensures Filter(StableSort(s, before), HasRank(rank, v)) == Filter(s, HasRank(rank, v))
  {
    if s != [] {
      var init, last := s[..|s| - 1], s[|s| - 1];
      SortStable(init, before, rank, v);
      SortSorted(init, before, rank);
      SortedPartElements(s, before);
      InsertStable(StableSort(init, before), last, before, rank, v);
    }
  }

  lemma {:induction false} FilterAppend<T>(s: seq<T>, x: T, p: T -> bool)
    ensures Filter(s + [x], p) == if p(x) then Filter(s, p) + [x] else Filter(s, p)
  {
    assert (s + [x])[..|s|] == s;
  }

  lemma {:induction false} FilterConcat<T>(s: seq<T>, t: seq<T>, p: T -> bool)
    ensures Filter(s + t, p) == Filter(s, p) + Filter(t, p)
    decreases |t|
  {
    if t == [] {
      assert s + t == s;
    } else {
      var init, last := t[..|t| - 1], t[|t| - 1];
      assert s + t == (s + init) + [last];
      FilterConcat(s, init, p);
      FilterAppend(s + init, last, p);
    }
  }

  lemma {:induction false} InsertStable<T>(s: seq<T>, x: T, before: (T, T) -> bool, rank: T -> int, v: int)
    requires Ranks(s + [x], before, rank) && SortedBy(s, rank)
    ensures var p := HasRank(rank, v);
            Filter(Insert(s, x, before), p) == Filter(s, p) + (if p(x) then [x] else [])
  {
    var p := HasRank(rank, v);
    if s == [] {
      FilterAppend([], x, p);
    } else {
      var init, last := s[..|s| - 1], s[|s| - 1];
      assert x in s + [x] && last in s + [x];
      if before(x, last) {
        assert forall y :: y in init + [x] ==> y in s + [x];
        InsertStable(init, x, before, rank, v);
        FilterAppend(Insert(init, x, before), last, p);
      } else {
        FilterAppend(s, x, p);
      }
    }
  }

  // ---- what else sorting keeps ----

  lemma {:induction false} SumOfAppend<T>(s: seq<T>, x: T, f: T -> int)
    ensures SumOf(s + [x], f) == SumOf(s, f) + f(x)
  {
    assert (s + [x])[..|s|] == s;
  }

  lemma {:induction false} SumOfUpdate<T>(s: seq<T>, i: nat, x: T, f: T -> int)
    requires i < |s|
    ensures SumOf(s[i := x], f) == SumOf(s, f) - f(s[i]) + f(x)
    decreases |s|
  {
    var n := |s| - 1;
    if i == n {
      assert s[i := x][..n] == s[..n];
    } else {
      assert s[i := x][..n] == s[..n][i := x];
      SumOfUpdate(s[..n], i, x, f);
    }
  }

  lemma {:induction false} SumOfTail<T>(s: seq<T>, f: T -> int)
    requires s != []
    ensures SumOf(s, f) == f(s[0]) + SumOf(s[1..], f)
    decreases |s|
  {
    var n := |s| - 1;
    if n == 0 {
      assert s[..n] == [] && s[1..] == [];
    } else {
      assert s[1..][..n - 1] == s[..n][1..];
      SumOfTail(s[..n], f);
    }
  }

  lemma {:induction false} SumOfNonNegative<T>(s: seq<T>, f: T -> int)
    requires forall x :: x in s ==> f(x) >= 0
    ensures SumOf(s, f) >= 0
    ensures forall i :: 0 <= i < |s| ==> f(s[i]) <= SumOf(s, f)
  {
    if s != [] {
      assert s[|s| - 1] in s;
      SumOfNonNegative(s[..|s| - 1], f);
    }
  }

  lemma {:induction false} SumOfZero<T>(s: seq<T>, f: T -> int)
    requires forall x :: x in s ==> f(x) == 0
    ensures SumOf(s, f) == 0
  {
    if s != [] {
      assert s[|s| - 1] in s;
      SumOfZero(s[..|s| - 1], f);
    }
  }

  lemma {:induction false} InsertSum<T>(s: seq<T>, x: T, before: (T, T) -> bool, f: T -> int)
    ensures SumOf(Insert(s, x, before), f) == SumOf(s, f) + f(x)
  {
    if s == [] {
      SumOfAppend([], x, f);
    } else {
      var init, last := s[..|s| - 1], s[|s| - 1];
      if before(x, last) {
        InsertSum(init, x, before, f);
        SumOfAppend(Insert(init, x, before), last, f);
      } else {
        SumOfAppend(s, x, f);
      }
    }
  }

  lemma {:induction false} SortSum<T>(s: seq<T>, before: (T, T) -> bool, f: T -> int)
    ensures SumOf(StableSort(s, before), f) == SumOf(s, f)
  {
    if s != [] {
      SortSum(s[..|s| - 1], before, f);
      InsertSum(StableSort(s[..|s| - 1], before), s[|s| - 1], before, f);
    }
  }

  lemma {:induction false} InsertDistinct<T>(s: seq<T>, x: T, before: (T, T) -> bool, id: T -> int)
    requires DistinctBy(s, id) && forall y :: y in s ==> id(y) != id(x)
    ensures DistinctBy(Insert(s, x, before), id)
  {
    if s != [] {
      var init, last := s[..|s| - 1], s[|s| - 1];
      if before(x, last) {
        InsertDistinct(init, x, before, id);
        InsertElements(init, x, before);
        var t := Insert(init, x, before);
        forall y | y in t ensures id(y) != id(last) {
          assert y in multiset(t);
          assert y in multiset(init) || y == x;
        }
      }
    }
  }

  lemma {:induction false} SortDistinct<T>(s: seq<T>, before: (T, T) -> bool, id: T -> int)
    requires DistinctBy(s, id)
    ensures DistinctBy(StableSort(s, before), id)
  {
    if s != [] {
      var init, last := s[..|s| - 1], s[|s| - 1];
      SortDistinct(init, before, id);
      SortElements(init, before);
      forall y | y in StableSort(init, before) ensures id(y) != id(last) {
        SortMember(init, before, y);
        var i :| 0 <= i < |init| && init[i] == y;
        assert s[i] == y;
      }
      InsertDistinct(StableSort(init, before), last, before, id);
    }
  }
}
