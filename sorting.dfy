/**
 * `Array.prototype.sort` with a comparator. The ECMAScript specification asks for a
 * stable sort and leaves the order unspecified only when the comparator is not
 * consistent; for a consistent comparator the stable sorted permutation is unique, so
 * it is modelled here by insertion sort, which computes exactly that permutation.
 */
module Sorting {
  import opened Wrappers
  import opened Collections

  /**
   * `cmp` is a consistent comparator on the elements of `s`: the sign flips when the
   * arguments are swapped, and "not after" is transitive.
   */
  ghost predicate ConsistentOn<T>(s: seq<T>, cmp: (T, T) -> int) {
    (forall a, b | a in s && b in s :: cmp(a, b) < 0 <==> cmp(b, a) > 0) &&
    (forall a, b, c | a in s && b in s && c in s ::
      cmp(a, b) <= 0 && cmp(b, c) <= 0 ==> cmp(a, c) <= 0)
  }

  /** Each element is not after its successor. */
  predicate SortedBy<T>(s: seq<T>, cmp: (T, T) -> int) {
    forall i :: 0 <= i < |s| - 1 ==> cmp(s[i], s[i + 1]) <= 0
  }

  /** The elements `cmp` puts level with `e`. */
  function Level<T>(cmp: (T, T) -> int, e: T): T -> bool {
    y => cmp(e, y) == 0
  }

  /** Puts `x` in front of the first element it is not after. */
  function Insert<T>(x: T, ys: seq<T>, cmp: (T, T) -> int): (r: seq<T>)
    ensures |r| == |ys| + 1
    ensures multiset(r) == multiset(ys) + multiset{x}
    ensures r[0] == x || (ys != [] && r[0] == ys[0])
  {
    if ys == [] || cmp(x, ys[0]) <= 0 then [x] + ys
    else
      assert ys == [ys[0]] + ys[1..];
      [ys[0]] + Insert(x, ys[1..], cmp)
  }

  /** `[...s].sort(cmp)`: the stable sort of `s` by `cmp`. */
  function SortBy<T>(s: seq<T>, cmp: (T, T) -> int): (r: seq<T>)
    ensures multiset(r) == multiset(s)
  {
    if s == [] then []
    else
      assert s == [s[0]] + s[1..];
      Insert(s[0], SortBy(s[1..], cmp), cmp)
  }

  /**
   * `Insert` with a comparator that may throw: the comparisons run in the same order,
   * and the first one that throws ends the insertion with its exception.
   */
  function InsertOrThrow<T, E>(x: T, ys: seq<T>, cmp: (T, T) -> Result<int, E>): Result<seq<T>, E> {
    if ys == [] then Success([x])
    else
      match cmp(x, ys[0])
      case Failure(e) => Failure(e)
      case Success(k) =>
        if k <= 0 then Success([x] + ys)
        else
          match InsertOrThrow(x, ys[1..], cmp)
          case Failure(e) => Failure(e)
          case Success(r) => Success([ys[0]] + r)
  }

  /** `SortBy` with a comparator that may throw: the sort throws what its first failing comparison throws. */
  function SortByOrThrow<T, E>(s: seq<T>, cmp: (T, T) -> Result<int, E>): Result<seq<T>, E> {
    if s == [] then Success([])
    else
      match SortByOrThrow(s[1..], cmp)
      case Failure(e) => Failure(e)
      case Success(ys) => InsertOrThrow(s[0], ys, cmp)
  }

  lemma {:induction false} InsertOrThrowAgrees<T, E>(x: T, ys: seq<T>, cmp: (T, T) -> Result<int, E>,
                                                      total: (T, T) -> int)
    requires forall y :: y in ys ==> cmp(x, y) == Success(total(x, y))
    ensures InsertOrThrow(x, ys, cmp) == Success(Insert(x, ys, total))
  {
    if ys != [] {
      assert ys[0] in ys;
      if total(x, ys[0]) > 0 {
        assert forall y :: y in ys[1..] ==> y in ys;
        InsertOrThrowAgrees(x, ys[1..], cmp, total);
        assert Insert(x, ys, total) == [ys[0]] + Insert(x, ys[1..], total);
      } else {
        assert Insert(x, ys, total) == [x] + ys;
      }
    } else {
      assert [x] + ys == [x];
    }
  }

  /**
   * A comparator that throws on no pair of the elements sorts them exactly as the
   * comparator it agrees with.
   */
  lemma {:induction false} SortByOrThrowAgrees<T, E>(s: seq<T>, cmp: (T, T) -> Result<int, E>,
                                                      total: (T, T) -> int)
    requires forall a, b :: a in s && b in s ==> cmp(a, b) == Success(total(a, b))
    ensures SortByOrThrow(s, cmp) == Success(SortBy(s, total))
  {
    if s != [] {
      assert forall a :: a in s[1..] ==> a in s;
      SortByOrThrowAgrees(s[1..], cmp, total);
      var ys := SortBy(s[1..], total);
      assert forall y :: y in ys ==> y in multiset(s[1..]);
      assert s[0] in s;
      InsertOrThrowAgrees(s[0], ys, cmp, total);
    }
  }

  lemma ConsistentOnSmaller<T>(s: seq<T>, t: seq<T>, cmp: (T, T) -> int)
    requires ConsistentOn(s, cmp)
    requires forall x :: x in t ==> x in s
    ensures ConsistentOn(t, cmp)
  {
  }

  lemma {:induction false} InsertSorted<T>(x: T, ys: seq<T>, cmp: (T, T) -> int)
    requires SortedBy(ys, cmp) && ConsistentOn([x] + ys, cmp)
    ensures SortedBy(Insert(x, ys, cmp), cmp)
  {
    if ys != [] && cmp(x, ys[0]) > 0 {
      ConsistentOnSmaller([x] + ys, [x] + ys[1..], cmp);
      InsertSorted(x, ys[1..], cmp);
      var r := Insert(x, ys[1..], cmp);
      assert x in [x] + ys && ys[0] in [x] + ys;
      assert cmp(ys[0], r[0]) <= 0;
    }
  }

  /** The sort puts every element not after its successor. */
  lemma {:induction false} SortBySorted<T>(s: seq<T>, cmp: (T, T) -> int)
    requires ConsistentOn(s, cmp)
    ensures SortedBy(SortBy(s, cmp), cmp)
  {
    if s != [] {
      ConsistentOnSmaller(s, s[1..], cmp);
      SortBySorted(s[1..], cmp);
      var ys := SortBy(s[1..], cmp);
      assert forall y :: y in ys ==> y in multiset(s[1..]);
      ConsistentOnSmaller(s, [s[0]] + ys, cmp);
      InsertSorted(s[0], ys, cmp);
    }
  }

  /** Sorting only moves `x` past elements it is strictly after, never past its level. */
  lemma {:induction false} FilterInsert<T>(x: T, ys: seq<T>, cmp: (T, T) -> int, e: T)
    requires ConsistentOn([e, x] + ys, cmp)
    ensures Filter(Insert(x, ys, cmp), Level(cmp, e))
         == (if cmp(e, x) == 0 then [x] else []) + Filter(ys, Level(cmp, e))
  {
    var p := Level(cmp, e);
    if ys == [] || cmp(x, ys[0]) <= 0 {
      assert ([x] + ys)[0] == x && ([x] + ys)[1..] == ys;
    } else {
      var all := [e, x] + ys;
      ConsistentOnSmaller(all, [e, x] + ys[1..], cmp);
      FilterInsert(x, ys[1..], cmp, e);
      var tail := Filter(ys[1..], p);
      var r := [ys[0]] + Insert(x, ys[1..], cmp);
      assert r[0] == ys[0] && r[1..] == Insert(x, ys[1..], cmp);
      assert Filter(r, p) == (if p(ys[0]) then [ys[0]] else []) + ((if p(x) then [x] else []) + tail);
      assert Filter(ys, p) == (if p(ys[0]) then [ys[0]] else []) + tail;
      assert all[0] == e && all[1] == x && all[2] == ys[0];
      assert !(p(x) && p(ys[0]));
    }
  }

  /** Stability: the elements level with any `e` keep their relative order. */
  lemma {:induction false} SortByStable<T>(s: seq<T>, cmp: (T, T) -> int, e: T)
    requires ConsistentOn([e] + s, cmp)
    ensures Filter(SortBy(s, cmp), Level(cmp, e)) == Filter(s, Level(cmp, e))
  {
    if s != [] {
      ConsistentOnSmaller([e] + s, [e] + s[1..], cmp);
      SortByStable(s[1..], cmp, e);
      var ys := SortBy(s[1..], cmp);
      assert forall y :: y in ys ==> y in multiset(s[1..]);
      ConsistentOnSmaller([e] + s, [e, s[0]] + ys, cmp);
      FilterInsert(s[0], ys, cmp, e);
    }
  }

  lemma {:induction false} SortedSpan<T>(s: seq<T>, cmp: (T, T) -> int, i: nat, j: nat)
    requires SortedBy(s, cmp) && ConsistentOn(s, cmp)
    requires i < j < |s|
    ensures cmp(s[i], s[j]) <= 0
    decreases j - i
  {
    if j > i + 1 {
      SortedSpan(s, cmp, i, j - 1);
      assert s[i] in s && s[j - 1] in s && s[j] in s;
    }
  }

  /** With a consistent comparator, sorted adjacent pairs mean sorted pairs throughout. */
  lemma SortedPairwise<T>(s: seq<T>, cmp: (T, T) -> int)
    requires SortedBy(s, cmp) && ConsistentOn(s, cmp)
    ensures forall i, j :: 0 <= i < j < |s| ==> cmp(s[i], s[j]) <= 0
  {
    forall i, j | 0 <= i < j < |s| ensures cmp(s[i], s[j]) <= 0 {
      SortedSpan(s, cmp, i, j);
    }
  }

  /** The sort of `s` is a sorted, stable permutation of `s`. */
  lemma SortBySpec<T>(s: seq<T>, cmp: (T, T) -> int)
    requires ConsistentOn(s, cmp)
    ensures multiset(SortBy(s, cmp)) == multiset(s)
    ensures forall i, j :: 0 <= i < j < |s| ==> cmp(SortBy(s, cmp)[i], SortBy(s, cmp)[j]) <= 0
    ensures forall e :: e in s ==> Filter(SortBy(s, cmp), Level(cmp, e)) == Filter(s, Level(cmp, e))
  {
    var r := SortBy(s, cmp);
    SortBySorted(s, cmp);
    assert |r| == |s| by { assert |multiset(r)| == |multiset(s)|; }
    assert forall x :: x in r ==> x in multiset(s);
    ConsistentOnSmaller(s, r, cmp);
    SortedPairwise(r, cmp);
    forall e | e in s ensures Filter(r, Level(cmp, e)) == Filter(s, Level(cmp, e)) {
      ConsistentOnSmaller(s, [e] + s, cmp);
      SortByStable(s, cmp, e);
    }
  }
}
