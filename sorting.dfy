// Python's `list.sort(key=...)` and `sorted(..., key=...)`: a STABLE sort.
// The order is given by `lt(a, b)`, "a's key is strictly smaller than b's key"
// (for `reverse=True`, "a's key is strictly greater"; Python keeps the sort
// stable in that case too). The sort is modelled as insertion sort, which is
// stable; the lemmas below state the three properties a caller relies on:
// the result is ordered, is a permutation, and keeps equal keys in input order.

module Sorting {
  import opened Builtins

  /** `lt` is a strict weak order: asymmetric, and "not less" is transitive. */
  ghost predicate StrictWeakOrder<T(!new)>(lt: (T, T) -> bool)
  {
    && (forall a, b :: lt(a, b) ==> !lt(b, a))
    && (forall a, b, c :: !lt(a, b) && !lt(b, c) ==> !lt(a, c))
  }

  /** No element is strictly smaller than one placed before it. */
  ghost predicate SortedBy<T>(s: seq<T>, lt: (T, T) -> bool)
  {
    forall i, j :: 0 <= i < j < |s| ==> !lt(s[j], s[i])
  }

  /** Elements with the same key as `x` (neither sorts before the other). */
  predicate SameKey<T>(x: T, y: T, lt: (T, T) -> bool)
  {
    !lt(x, y) && !lt(y, x)
  }

  /** The elements of `s` whose key equals that of `x`, in order. */
  function SameKeyRun<T>(s: seq<T>, x: T, lt: (T, T) -> bool): (r: seq<T>)
    ensures |r| <= |s|
  {
    if s == [] then []
    else (if SameKey(x, s[0], lt) then [s[0]] else []) + SameKeyRun(s[1..], x, lt)
  }

  /** Inserts `x` in front of the first element whose key is not smaller. */
  function Insert<T>(x: T, s: seq<T>, lt: (T, T) -> bool): (r: seq<T>)
    ensures multiset(r) == multiset(s) + multiset{x}
  {
    if s == [] then [x]
    else if lt(s[0], x) then
      assert s == [s[0]] + s[1..];
      [s[0]] + Insert(x, s[1..], lt)
    else [x] + s
  }

  function SortBy<T>(s: seq<T>, lt: (T, T) -> bool): (r: seq<T>)
    ensures multiset(r) == multiset(s)
    ensures |r| == |s|
  {
    if s == [] then []
    else
      assert s == [s[0]] + s[1..];
      var r := Insert(s[0], SortBy(s[1..], lt), lt);
      assert |r| == |multiset(r)|;
      r
  }

  /** Prepending an element no later element sorts before keeps a sequence sorted. */
  lemma ConsSorted<T>(a: T, rest: seq<T>, lt: (T, T) -> bool)
    requires SortedBy(rest, lt)
    requires forall k :: 0 <= k < |rest| ==> !lt(rest[k], a)
    ensures SortedBy([a] + rest, lt)
  {
    var r := [a] + rest;
    forall i, j | 0 <= i < j < |r|
      ensures !lt(r[j], r[i])
    {
      assert r[j] == rest[j - 1];
      if i > 0 {
        assert r[i] == rest[i - 1];
      }
    }
  }

  lemma InsertMembers<T>(x: T, s: seq<T>, lt: (T, T) -> bool, z: T)
    requires z in Insert(x, s, lt)
    ensures z == x || z in s
  {
    assert z in multiset(Insert(x, s, lt));
  }

  lemma {:induction false} InsertSorted<T(!new)>(x: T, s: seq<T>, lt: (T, T) -> bool)
    requires StrictWeakOrder(lt)
    requires SortedBy(s, lt)
    ensures SortedBy(Insert(x, s, lt), lt)
  {
    if s == [] {
    } else if lt(s[0], x) {
      var tail := s[1..];
      assert SortedBy(tail, lt);
      InsertSorted(x, tail, lt);
      var rest := Insert(x, tail, lt);
      forall k | 0 <= k < |rest|
        ensures !lt(rest[k], s[0])
      {
        InsertMembers(x, tail, lt, rest[k]);
        if rest[k] != x {
          var m :| 0 <= m < |tail| && tail[m] == rest[k];
          assert s[m + 1] == rest[k];
        }
      }
      ConsSorted(s[0], rest, lt);
    } else {
      forall k | 0 <= k < |s|
        ensures !lt(s[k], x)
      {
        assert k == 0 || !lt(s[k], s[0]);
      }
      ConsSorted(x, s, lt);
    }
  }

  lemma {:induction false} SortBySorted<T(!new)>(s: seq<T>, lt: (T, T) -> bool)
    requires StrictWeakOrder(lt)
    ensures SortedBy(SortBy(s, lt), lt)
  {
    if s != [] {
      SortBySorted(s[1..], lt);
      InsertSorted(s[0], SortBy(s[1..], lt), lt);
    }
  }

  /** An element strictly before `y` cannot share `y`'s key with `x` when `x` does. */
  lemma BeforeNotSameKey<T(!new)>(a: T, y: T, x: T, lt: (T, T) -> bool)
    requires StrictWeakOrder(lt)
    requires lt(a, y) && SameKey(x, y, lt)
    ensures !SameKey(x, a, lt)
  {
    assert !lt(a, x) && !lt(x, y) ==> !lt(a, y);
  }

  /** The run of `x`'s key in `[a] + rest`, when `rest`'s run is known. */
  lemma RunAfterHead<T>(a: T, rest: seq<T>, tail: seq<T>, own: seq<T>, x: T, lt: (T, T) -> bool)
    requires SameKeyRun(rest, x, lt) == own + SameKeyRun(tail, x, lt)
    requires SameKey(x, a, lt) ==> own == []
    ensures SameKeyRun([a] + rest, x, lt) == own + SameKeyRun([a] + tail, x, lt)
  {
    var r := [a] + rest;
    assert r[0] == a && r[1..] == rest;
    var t := [a] + tail;
    assert t[0] == a && t[1..] == tail;
    var tailRun := SameKeyRun(tail, x, lt);
    if SameKey(x, a, lt) {
      assert own + ([a] + tailRun) == [a] + tailRun;
    } else {
      assert [] + (own + tailRun) == own + tailRun;
    }
  }

  lemma {:induction false} InsertKeepsSameKeyOrder<T(!new)>(y: T, s: seq<T>, x: T, lt: (T, T) -> bool)
    requires StrictWeakOrder(lt)
    ensures SameKeyRun(Insert(y, s, lt), x, lt)
         == (if SameKey(x, y, lt) then [y] else []) + SameKeyRun(s, x, lt)
  {
    if s == [] {
    } else if lt(s[0], y) {
      InsertKeepsSameKeyOrder(y, s[1..], x, lt);
      if SameKey(x, y, lt) {
        BeforeNotSameKey(s[0], y, x, lt);
      }
      RunAfterHead(s[0], Insert(y, s[1..], lt), s[1..], if SameKey(x, y, lt) then [y] else [], x, lt);
      assert [s[0]] + s[1..] == s;
    } else {
      var r := [y] + s;
      assert r[0] == y && r[1..] == s;
    }
  }

  /** Stability: elements with equal keys keep their input order. */
  lemma {:induction false} SortByStable<T(!new)>(s: seq<T>, x: T, lt: (T, T) -> bool)
    requires StrictWeakOrder(lt)
    ensures SameKeyRun(SortBy(s, lt), x, lt) == SameKeyRun(s, x, lt)
  {
    if s != [] {
      SortByStable(s[1..], x, lt);
      InsertKeepsSameKeyOrder(s[0], SortBy(s[1..], lt), x, lt);
    }
  }

  lemma SortByMembers<T>(s: seq<T>, lt: (T, T) -> bool, y: T)
    ensures y in SortBy(s, lt) <==> y in s
  {
    assert y in SortBy(s, lt) <==> y in multiset(SortBy(s, lt));
    assert y in s <==> y in multiset(s);
  }

  /**
   * Sorting and keeping the first `n` (Python `sorted(s)[:n]`): the kept
   * elements are ordered and come from `s`; nothing left out sorts strictly
   * before anything kept; and everything is kept when `n` covers `s`.
   */
  lemma SortedCut<T(!new)>(s: seq<T>, lt: (T, T) -> bool, n: int)
    requires StrictWeakOrder(lt)
    ensures SortedBy(SliceTo(SortBy(s, lt), n), lt)
    ensures forall x :: x in SliceTo(SortBy(s, lt), n) ==> x in s
    ensures forall x, k :: x in s && x !in SliceTo(SortBy(s, lt), n) && 0 <= k < |SliceTo(SortBy(s, lt), n)|
                           ==> !lt(x, SliceTo(SortBy(s, lt), n)[k])
    ensures n >= |s| ==> forall x :: x in s ==> x in SliceTo(SortBy(s, lt), n)
  {
    var sorted := SortBy(s, lt);
    var cut := SliceTo(sorted, n);
    SortBySorted(s, lt);
    assert cut == sorted[..|cut|];
    forall x | x in cut
      ensures x in s
    {
      SortByMembers(s, lt, x);
    }
    forall x, k | x in s && x !in cut && 0 <= k < |cut|
      ensures !lt(x, cut[k])
    {
      SortByMembers(s, lt, x);
      var rest := sorted[|cut|..];
      assert sorted == cut + rest;
      assert x in rest;
      var t :| 0 <= t < |rest| && rest[t] == x;
      assert sorted[|cut| + t] == x && cut[k] == sorted[k];
    }
    if n >= |s| {
      assert cut == sorted;
      forall x | x in s
        ensures x in cut
      {
        SortByMembers(s, lt, x);
      }
    }
  }
}
