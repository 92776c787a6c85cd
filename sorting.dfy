/**
 * `Array.prototype.sort(compare)`, which the selectors call on card lists with
 * comparators they obtain from the sorting library. The sort is stable: it is
 * written here as an insertion sort that moves a later element in front of an
 * earlier one only when the comparator says the earlier one is greater.
 */
module Sorting {

  /** Inserts `x` behind every element of `sorted` that does not compare greater than it. */
  function Insert<T>(sorted: seq<T>, x: T, cmp: (T, T) -> int): (r: seq<T>)
    ensures |r| == |sorted| + 1
    ensures multiset(r) == multiset(sorted) + multiset{x}
    decreases |sorted|
  {
    if |sorted| == 0 then [x]
    else
      var last := sorted[|sorted| - 1];
      var init := sorted[..|sorted| - 1];
      assert sorted == init + [last];
      if cmp(last, x) > 0 then Insert(init, x, cmp) + [last] else sorted + [x]
  }

  /** `s.sort(cmp)`: the elements of `s`, stably ordered by `cmp`. */
  function SortBy<T>(s: seq<T>, cmp: (T, T) -> int): (r: seq<T>)
    ensures |r| == |s|
    ensures multiset(r) == multiset(s)
    decreases |s|
  {
    if |s| == 0 then []
    else
      assert s == s[..|s| - 1] + [s[|s| - 1]];
      Insert(SortBy(s[..|s| - 1], cmp), s[|s| - 1], cmp)
  }

  /** A comparator that orders consistently: a total preorder, as the ECMAScript sort expects. */
  ghost predicate Consistent<T(!new)>(cmp: (T, T) -> int) {
    && (forall a, b :: cmp(a, b) > 0 ==> cmp(b, a) < 0)
    && (forall a, b, c :: cmp(a, b) <= 0 && cmp(b, c) <= 0 ==> cmp(a, c) <= 0)
  }

  /** No element compares greater than a later one. */
  ghost predicate SortedBy<T>(r: seq<T>, cmp: (T, T) -> int) {
    forall i, j :: 0 <= i < j < |r| ==> cmp(r[i], r[j]) <= 0
  }

  /** Inserting brings in `x` and nothing else. */
  lemma InsertElements<T>(sorted: seq<T>, x: T, cmp: (T, T) -> int)
    ensures forall z :: z in Insert(sorted, x, cmp) ==> z in sorted || z == x
  {
    var r := Insert(sorted, x, cmp);
    forall z | z in r ensures z in sorted || z == x {
      assert z in multiset(r);
    }
  }

  lemma {:induction false} InsertSorted<T(!new)>(sorted: seq<T>, x: T, cmp: (T, T) -> int)
    requires Consistent(cmp) && SortedBy(sorted, cmp)
    ensures SortedBy(Insert(sorted, x, cmp), cmp)
    decreases |sorted|, 1
  {
    if |sorted| > 0 {
      var last := sorted[|sorted| - 1];
      var init := sorted[..|sorted| - 1];
      assert SortedBy(init, cmp);
      if cmp(last, x) > 0 {
        InsertBefore(init, last, x, cmp);
      } else {
        assert Insert(sorted, x, cmp) == sorted + [x];
        AppendAfter(sorted, x, cmp);
      }
    }
  }

  /** The case of `InsertSorted` in which `x` goes behind the last element. */
  lemma AppendAfter<T(!new)>(sorted: seq<T>, x: T, cmp: (T, T) -> int)
    requires Consistent(cmp) && SortedBy(sorted, cmp)
    requires |sorted| > 0 && cmp(sorted[|sorted| - 1], x) <= 0
    ensures SortedBy(sorted + [x], cmp)
  {
    var r := sorted + [x];
    var last := sorted[|sorted| - 1];
    forall i, j | 0 <= i < j < |r| ensures cmp(r[i], r[j]) <= 0 {
      if j == |r| - 1 {
        if i < |sorted| - 1 {
          assert cmp(sorted[i], last) <= 0;
        }
      } else {
        assert r[i] == sorted[i] && r[j] == sorted[j];
      }
    }
  }

  /** The case of `InsertSorted` in which `x` goes in front of the last element. */
  lemma {:induction false} InsertBefore<T(!new)>(init: seq<T>, last: T, x: T, cmp: (T, T) -> int)
    requires Consistent(cmp) && SortedBy(init + [last], cmp)
    requires cmp(last, x) > 0
    ensures SortedBy(Insert(init + [last], x, cmp), cmp)
    decreases |init| + 1, 0
  {
    var sorted := init + [last];
    assert sorted[..|sorted| - 1] == init;
    assert SortedBy(init, cmp);
    InsertSorted(init, x, cmp);
    InsertElements(init, x, cmp);
    var q := Insert(init, x, cmp);
    var r := q + [last];
    assert Insert(sorted, x, cmp) == r;
    forall z | z in q ensures cmp(z, last) <= 0 {
      if z != x {
        var k :| 0 <= k < |init| && init[k] == z;
        assert sorted[k] == z && sorted[|sorted| - 1] == last;
      }
    }
    forall i, j | 0 <= i < j < |r| ensures cmp(r[i], r[j]) <= 0 {
      if j == |r| - 1 {
        assert r[i] in q;
      } else {
        assert r[i] == q[i] && r[j] == q[j];
      }
    }
  }

  /** With a consistent comparator the result is ordered by it. */
  lemma {:induction false} SortBySorted<T(!new)>(s: seq<T>, cmp: (T, T) -> int)
    requires Consistent(cmp)
    ensures SortedBy(SortBy(s, cmp), cmp)
    decreases |s|
  {
    if |s| > 0 {
      SortBySorted(s[..|s| - 1], cmp);
      InsertSorted(SortBy(s[..|s| - 1], cmp), s[|s| - 1], cmp);
    }
  }

  /** Whether two elements compare equal: neither comes before the other. */
  predicate Equivalent<T>(a: T, b: T, cmp: (T, T) -> int) {
    cmp(a, b) <= 0 && cmp(b, a) <= 0
  }

  /** The elements of `s` that compare equal to `k`, in their order. */
  function EquivalentTo<T>(s: seq<T>, k: T, cmp: (T, T) -> int): seq<T>
    decreases |s|
  {
    if |s| == 0 then []
    else EquivalentTo(s[..|s| - 1], k, cmp) + (if Equivalent(s[|s| - 1], k, cmp) then [s[|s| - 1]] else [])
  }

  lemma EquivalentToSnoc<T>(s: seq<T>, x: T, k: T, cmp: (T, T) -> int)
    ensures EquivalentTo(s + [x], k, cmp) == EquivalentTo(s, k, cmp) + (if Equivalent(x, k, cmp) then [x] else [])
  {
    assert (s + [x])[..|s|] == s;
  }

  /** Inserting `x` puts it behind every element that compares equal to `k` when `x` does too. */
  lemma {:induction false} InsertStable<T(!new)>(sorted: seq<T>, x: T, k: T, cmp: (T, T) -> int)
    requires Consistent(cmp)
    ensures EquivalentTo(Insert(sorted, x, cmp), k, cmp)
      == EquivalentTo(sorted, k, cmp) + (if Equivalent(x, k, cmp) then [x] else [])
    decreases |sorted|
  {
    if |sorted| == 0 {
      EquivalentToSnoc([], x, k, cmp);
    } else {
      var last := sorted[|sorted| - 1];
      var init := sorted[..|sorted| - 1];
      assert sorted == init + [last];
      if cmp(last, x) > 0 {
        InsertStable(init, x, k, cmp);
        EquivalentToSnoc(Insert(init, x, cmp), last, k, cmp);
        EquivalentToSnoc(init, last, k, cmp);
        // `last` and `x` cannot both compare equal to `k`: then `last` would not be greater than `x`.
        assert !(Equivalent(x, k, cmp) && Equivalent(last, k, cmp));
      } else {
        EquivalentToSnoc(sorted, x, k, cmp);
      }
    }
  }

  /** The sort is stable: the elements that compare equal to any `k` keep their relative order. */
  lemma {:induction false} SortByStable<T(!new)>(s: seq<T>, k: T, cmp: (T, T) -> int)
    requires Consistent(cmp)
    ensures EquivalentTo(SortBy(s, cmp), k, cmp) == EquivalentTo(s, k, cmp)
    decreases |s|
  {
    if |s| > 0 {
      SortByStable(s[..|s| - 1], k, cmp);
      InsertStable(SortBy(s[..|s| - 1], cmp), s[|s| - 1], k, cmp);
    }
  }
}
