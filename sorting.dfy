/**
 * `Array.prototype.sort` with a comparator, as a stable insertion sort, and
 * the `sort(...).slice(0, n)` "top n" idiom built on it.
 *
 * A comparator returns a real whose sign orders its two arguments, as the
 * JavaScript callbacks `(a, b) => a.x - b.x` do.
 */
module Sorting {
  import opened Numbers

  /** The comparator is antisymmetric and its "not after" relation is transitive. */
  ghost predicate Consistent<T(!new)>(cmp: (T, T) -> real)
  {
    (forall a, b :: cmp(a, b) == -cmp(b, a))
    && (forall a, b, c :: cmp(a, b) <= 0.0 && cmp(b, c) <= 0.0 ==> cmp(a, c) <= 0.0)
  }

  /** No element is placed after one it should come after. */
  ghost predicate Sorted<T>(s: seq<T>, cmp: (T, T) -> real)
  {
    forall i, j :: 0 <= i < j < |s| ==> cmp(s[i], s[j]) <= 0.0
  }

  /** Puts `x` before the first element that compares greater, so equal elements keep their order. */
  function Insert<T>(x: T, s: seq<T>, cmp: (T, T) -> real): (r: seq<T>)
    ensures multiset(r) == multiset(s) + multiset{x}
    ensures |r| == |s| + 1
  {
    if s == [] then [x]
    else if cmp(s[0], x) > 0.0 then [x] + s
    else
      assert s == [s[0]] + s[1..];
      [s[0]] + Insert(x, s[1..], cmp)
  }

  /** Sorting inserts each element, left to right, into the sorted prefix. */
  function SortBy<T>(s: seq<T>, cmp: (T, T) -> real): (r: seq<T>)
    ensures multiset(r) == multiset(s)
    ensures |r| == |s|
  {
    if s == [] then []
    else
      assert s == s[..|s| - 1] + [s[|s| - 1]];
      Insert(s[|s| - 1], SortBy(s[..|s| - 1], cmp), cmp)
  }

  /** Prepending an element that comes before every element keeps a sequence sorted. */
  lemma SortedCons<T>(h: T, t: seq<T>, cmp: (T, T) -> real)
    requires Sorted(t, cmp)
    requires forall i :: 0 <= i < |t| ==> cmp(h, t[i]) <= 0.0
    ensures Sorted([h] + t, cmp)
  {
    var r := [h] + t;
    forall i, j | 0 <= i < j < |r| ensures cmp(r[i], r[j]) <= 0.0 {
      assert r[j] == t[j - 1];
      if i > 0 { assert r[i] == t[i - 1]; }
    }
  }

  /** An element that comes before `x` and everything in `s` comes before everything in the insertion. */
  lemma {:induction false} InsertBound<T>(b: T, x: T, s: seq<T>, cmp: (T, T) -> real)
    requires cmp(b, x) <= 0.0
    requires forall i :: 0 <= i < |s| ==> cmp(b, s[i]) <= 0.0
    ensures forall i :: 0 <= i < |Insert(x, s, cmp)| ==> cmp(b, Insert(x, s, cmp)[i]) <= 0.0
  {
    if s != [] && cmp(s[0], x) <= 0.0 {
      InsertBound(b, x, s[1..], cmp);
    }
  }

  lemma {:induction false} InsertSorted<T(!new)>(x: T, s: seq<T>, cmp: (T, T) -> real)
    requires Consistent(cmp) && Sorted(s, cmp)
    ensures Sorted(Insert(x, s, cmp), cmp)
  {
    if s == [] {
    } else if cmp(s[0], x) > 0.0 {
      assert cmp(x, s[0]) < 0.0;
      forall i | 0 <= i < |s| ensures cmp(x, s[i]) <= 0.0 {
        if i > 0 { assert cmp(s[0], s[i]) <= 0.0; }
      }
      SortedCons(x, s, cmp);
    } else {
      var t := s[1..];
      assert Sorted(t, cmp);
      InsertSorted(x, t, cmp);
      InsertBound(s[0], x, t, cmp);
      SortedCons(s[0], Insert(x, t, cmp), cmp);
    }
  }

  /** A consistent comparator yields a sorted result. */
  lemma {:induction false} SortBySorted<T(!new)>(s: seq<T>, cmp: (T, T) -> real)
    requires Consistent(cmp)
    ensures Sorted(SortBy(s, cmp), cmp)
  {
    if s != [] {
      SortBySorted(s[..|s| - 1], cmp);
      InsertSorted(s[|s| - 1], SortBy(s[..|s| - 1], cmp), cmp);
    }
  }

  /** `[...s].sort(cmp).slice(0, n)`. */
  function TopN<T>(s: seq<T>, cmp: (T, T) -> real, n: int): seq<T>
  {
    SlicePrefix(SortBy(s, cmp), n)
  }

  /**
   * The first `n` after sorting: sorted, drawn from `s`, never longer than `n`
   * (for positive `n`), and no element left out comes before one kept.
   */
  lemma TopNSpec<T(!new)>(s: seq<T>, cmp: (T, T) -> real, n: int)
    requires Consistent(cmp)
    ensures Sorted(TopN(s, cmp, n), cmp)
    ensures multiset(TopN(s, cmp, n)) <= multiset(s)
    ensures n >= 0 ==> |TopN(s, cmp, n)| == if n < |s| then n else |s|
    ensures forall x, y :: x in TopN(s, cmp, n) && y in multiset(s) - multiset(TopN(s, cmp, n)) ==> cmp(x, y) <= 0.0
  {
    var sorted := SortBy(s, cmp);
    SortBySorted(s, cmp);
    var r := TopN(s, cmp, n);
    PrefixSplit(sorted, |r|, cmp);
  }

  /** Sorting keeps every element, so the cut is as long as `slice(0, n)` of `s` would be. */
  lemma TopNLength<T>(s: seq<T>, cmp: (T, T) -> real, n: int)
    ensures |TopN(s, cmp, n)| == |SlicePrefix(s, n)|
  {
  }

  /** Cutting a sorted sequence in two: the front is sorted and comes before all of the back. */
  lemma PrefixSplit<T>(sorted: seq<T>, k: nat, cmp: (T, T) -> real)
    requires k <= |sorted| && Sorted(sorted, cmp)
    ensures Sorted(sorted[..k], cmp)
    ensures multiset(sorted) - multiset(sorted[..k]) == multiset(sorted[k..])
    ensures forall x, y :: x in sorted[..k] && y in multiset(sorted) - multiset(sorted[..k]) ==> cmp(x, y) <= 0.0
  {
    var r := sorted[..k];
    assert sorted == r + sorted[k..];
    assert multiset(sorted) == multiset(r) + multiset(sorted[k..]);
    forall x, y | x in r && y in multiset(sorted[k..]) ensures cmp(x, y) <= 0.0 {
      var i :| 0 <= i < k && r[i] == x;
      var j :| 0 <= j < |sorted| - k && sorted[k..][j] == y;
      assert sorted[i] == x && sorted[k + j] == y;
    }
  }

  /** Sorting by a numeric key, ascending (`a.x - b.x`) or descending (`b.x - a.x`). */
  function ByKey<T>(key: T -> real, ascending: bool): (T, T) -> real
  {
    (a: T, b: T) => if ascending then key(a) - key(b) else key(b) - key(a)
  }

  lemma ByKeyConsistent<T(!new)>(key: T -> real, ascending: bool)
    ensures Consistent(ByKey(key, ascending))
  {
  }

  /** A key comparator sorts by the key: ascending keys are non-decreasing, descending keys non-increasing. */
  lemma ByKeySortedKeys<T(!new)>(s: seq<T>, key: T -> real, ascending: bool)
    ensures var r := SortBy(s, ByKey(key, ascending));
      forall i, j :: 0 <= i < j < |r| ==> if ascending then key(r[i]) <= key(r[j]) else key(r[i]) >= key(r[j])
  {
    ByKeyConsistent(key, ascending);
    SortBySorted(s, ByKey(key, ascending));
  }
}
