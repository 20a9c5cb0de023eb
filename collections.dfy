/**
 * Sequences and insertion-ordered dictionaries.
 *
 * A JavaScript object or a Python dict used as a dictionary is an association list
 * `Entries<K, V>` in insertion order (the order `Object.entries` and `dict.items`
 * report for the keys used here). `Tally` is the counting idiom
 * `counts[k] = (counts[k] || 0) + 1` folded over a sequence of keys.
 */
module Collections {
  import opened Wrappers

  // ---------------------------------------------------------------------------
  // Filtering and subsequences

  /** `s.filter(p)` / `[x for x in s if p(x)]`. */
  function Filter<T>(s: seq<T>, p: T -> bool): (r: seq<T>)
    ensures |r| <= |s|
  {
    if s == [] then [] else (if p(s[0]) then [s[0]] else []) + Filter(s[1..], p)
  }

  /** Filtering keeps exactly the elements that satisfy the predicate. */
  lemma {:induction false} FilterMembers<T>(s: seq<T>, p: T -> bool)
    ensures forall x :: x in Filter(s, p) ==> x in s && p(x)
    ensures forall x :: x in s && p(x) ==> x in Filter(s, p)
  {
    if s != [] {
      FilterMembers(s[1..], p);
      assert forall x :: x in s ==> x == s[0] || x in s[1..];
    }
  }

  /** `r` is obtained from `s` by deleting elements, keeping the order of the rest. */
  predicate Subsequence<T(==)>(r: seq<T>, s: seq<T>)
    decreases |s|
  {
    if r == [] then true
    else if s == [] then false
    else if r[0] == s[0] then Subsequence(r[1..], s[1..])
    else Subsequence(r, s[1..])
  }

  lemma {:induction false} SubsequenceSelf<T>(s: seq<T>)
    ensures Subsequence(s, s)
  {
    if s != [] {
      SubsequenceSelf(s[1..]);
    }
  }

  /** Filtering keeps the order: its result is a subsequence of the input. */
  lemma {:induction false} FilterIsSubsequence<T>(s: seq<T>, p: T -> bool)
    ensures Subsequence(Filter(s, p), s)
  {
    if s != [] {
      FilterIsSubsequence(s[1..], p);
      var r := Filter(s, p);
      if p(s[0]) {
        assert r[0] == s[0] && r[1..] == Filter(s[1..], p);
      } else {
        assert r == Filter(s[1..], p);
        if r != [] {
          FilterMembers(s[1..], p);
          assert r[0] in r;
        }
      }
    }
  }

  /** Filtering keeps every occurrence of a satisfying element and nothing else. */
  lemma {:induction false} FilterCount<T>(s: seq<T>, p: T -> bool, x: T)
    ensures multiset(Filter(s, p))[x] == if p(x) then multiset(s)[x] else 0
  {
    if s != [] {
      FilterCount(s[1..], p, x);
      assert s == [s[0]] + s[1..];
    }
  }

  lemma {:induction false} FilterAppend<T>(a: seq<T>, b: seq<T>, p: T -> bool)
    ensures Filter(a + b, p) == Filter(a, p) + Filter(b, p)
  {
    if a == [] {
      assert a + b == b;
    } else {
      var head := if p(a[0]) then [a[0]] else [];
      assert Filter(a + b, p) == head + Filter(a[1..] + b, p) by {
        assert (a + b)[0] == a[0] && (a + b)[1..] == a[1..] + b;
      }
      FilterAppend(a[1..], b, p);
      assert head + (Filter(a[1..], p) + Filter(b, p)) == (head + Filter(a[1..], p)) + Filter(b, p);
    }
  }
  /** Filtering a sequence with one more element at its front. */
  lemma FilterCons<T>(x: T, s: seq<T>, p: T -> bool)
    ensures Filter([x] + s, p) == (if p(x) then [x] else []) + Filter(s, p)
  {
    assert ([x] + s)[0] == x && ([x] + s)[1..] == s;
  }

  /** Filtering a sequence with one more element at its end. */
  lemma FilterSnoc<T>(s: seq<T>, p: T -> bool)
    requires s != []
    ensures p(s[|s| - 1]) ==> Filter(s, p) == Filter(s[..|s| - 1], p) + [s[|s| - 1]]
    ensures !p(s[|s| - 1]) ==> Filter(s, p) == Filter(s[..|s| - 1], p)
  {
    var init, last := s[..|s| - 1], s[|s| - 1];
    assert s == init + [last];
    FilterAppend(init, [last], p);
    assert Filter([last], p) == (if p(last) then [last] else []) + Filter([last][1..], p);
  }


  /** Filtering keeps every element exactly when every element satisfies the predicate. */
  lemma {:induction false} FilterKeepsAll<T>(s: seq<T>, p: T -> bool)
    ensures |Filter(s, p)| == |s| <==> forall x :: x in s ==> p(x)
  {
    if s != [] {
      FilterKeepsAll(s[1..], p);
      assert forall x :: x in s ==> x == s[0] || x in s[1..];
    }
  }

  /** Filtering keeps nothing exactly when no element satisfies the predicate. */
  lemma {:induction false} FilterNone<T>(s: seq<T>, p: T -> bool)
    ensures Filter(s, p) == [] <==> forall x :: x in s ==> !p(x)
  {
    if s != [] {
      FilterNone(s[1..], p);
      assert forall x :: x in s ==> x == s[0] || x in s[1..];
    }
  }

  lemma {:induction false} FilterAll<T>(s: seq<T>, p: T -> bool)
    requires forall x :: x in s ==> p(x)
    ensures Filter(s, p) == s
  {
    if s != [] {
      FilterAll(s[1..], p);
    }
  }

  /** Filtering twice is filtering once by both tests. */
  lemma {:induction false} FilterFilter<T>(s: seq<T>, p: T -> bool, q: T -> bool, both: T -> bool)
    requires forall x :: both(x) == (p(x) && q(x))
    ensures Filter(Filter(s, p), q) == Filter(s, both)
  {
    if s != [] {
      FilterFilter(s[1..], p, q, both);
      var rest := Filter(s[1..], p);
      var restBoth := Filter(s[1..], both);
      assert Filter(s, both) == (if both(s[0]) then [s[0]] else []) + restBoth;
      assert [] + restBoth == restBoth;
      if p(s[0]) {
        var fp := Filter(s, p);
        assert fp == [s[0]] + rest;
        assert fp[0] == s[0] && fp[1..] == rest;
        assert Filter(fp, q) == (if q(s[0]) then [s[0]] else []) + Filter(rest, q);
      } else {
        assert Filter(s, p) == [] + rest;
        assert [] + rest == rest;
        assert !both(s[0]);
      }
    }
  }

  // ---------------------------------------------------------------------------
  // Sums, distinct elements

  function Sum(s: seq<int>): int {
    if s == [] then 0 else s[0] + Sum(s[1..])
  }

  lemma {:induction false} SumAppend(a: seq<int>, b: seq<int>)
    ensures Sum(a + b) == Sum(a) + Sum(b)
  {
    if a != [] {
      SumAppend(a[1..], b);
      assert (a + b)[0] == a[0] && (a + b)[1..] == a[1..] + b;
    } else {
      assert a + b == b;
    }
  }

  function ToSet<T>(s: seq<T>): set<T> {
    set x | x in s
  }

  /** There are never more distinct elements than elements. */
  lemma {:induction false} ToSetBound<T>(s: seq<T>)
    ensures |ToSet(s)| <= |s|
  {
    if s != [] {
      ToSetBound(s[1..]);
      assert ToSet(s) == {s[0]} + ToSet(s[1..]);
    }
  }

  predicate Distinct<T(==)>(s: seq<T>) {
    forall i, j :: 0 <= i < j < |s| ==> s[i] != s[j]
  }

  lemma {:induction false} DistinctCard<T>(s: seq<T>)
    requires Distinct(s)
    ensures |ToSet(s)| == |s|
  {
    if s != [] {
      DistinctCard(s[1..]);
      assert ToSet(s) == {s[0]} + ToSet(s[1..]);
      assert s[0] !in ToSet(s[1..]);
    }
  }

  /** The elements of `s` in the order of their first appearance. */
  function Dedup<T(==)>(s: seq<T>): (r: seq<T>)
    ensures Distinct(r)
    ensures forall x :: x in r ==> x in s
    ensures forall x :: x in s ==> x in r
  {
    if s == [] then []
    else
      var d := Dedup(s[..|s| - 1]);
      assert forall x :: x in s[..|s| - 1] ==> x in s;
      assert forall x :: x in s ==> x in s[..|s| - 1] || x == s[|s| - 1];
      if s[|s| - 1] in d then d else d + [s[|s| - 1]]
  }

  // ---------------------------------------------------------------------------
  // Insertion-ordered dictionaries

  type Entries<K, V> = seq<(K, V)>

  function Keys<K, V>(d: Entries<K, V>): (ks: seq<K>)
    ensures |ks| == |d|
    ensures forall i :: 0 <= i < |d| ==> ks[i] == d[i].0
  {
    if d == [] then [] else [d[0].0] + Keys(d[1..])
  }

  /** `d[k]`: the value stored under `k`, if any. */
  function Lookup<K(==), V>(d: Entries<K, V>, k: K): (r: Option<V>)
    ensures r.None? <==> k !in Keys(d)
  {
    if d == [] then None else if d[0].0 == k then Some(d[0].1) else Lookup(d[1..], k)
  }

  /** A lookup finds the first pair with the key. */
  lemma {:induction false} LookupFirst<K, V>(d: Entries<K, V>, i: nat, k: K)
    requires i < |d| && d[i].0 == k
    requires forall j :: 0 <= j < i ==> d[j].0 != k
    ensures Lookup(d, k) == Some(d[i].1)
  {
    if i > 0 {
      LookupFirst(d[1..], i - 1, k);
    }
  }

  /** `d[k] || 0` for a dictionary of counts. */
  function Count<K(==)>(d: Entries<K, nat>, k: K): nat {
    Lookup(d, k).GetOr(0)
  }

  /** `d[k] = v`: overwrites the value in place, or appends a new key at the end. */
  function Put<K(==), V>(d: Entries<K, V>, k: K, v: V): (r: Entries<K, V>)
    ensures Keys(r) == if k in Keys(d) then Keys(d) else Keys(d) + [k]
    ensures Lookup(r, k) == Some(v)
  {
    if d == [] then [(k, v)]
    else if d[0].0 == k then [(k, v)] + d[1..]
    else [d[0]] + Put(d[1..], k, v)
  }

  /** Writing a key the first pair does not have leaves that pair in front. */
  lemma PutPastFirst<K, V>(d: Entries<K, V>, k: K, v: V)
    requires d != [] && d[0].0 != k
    ensures Put(d, k, v) == [d[0]] + Put(d[1..], k, v)
  {
  }

  /** Writing a new key appends it. */
  lemma PutNew<K, V>(d: Entries<K, V>, k: K, v: V)
    requires k !in Keys(d)
    ensures Put(d, k, v) == d + [(k, v)]
  {
    assert forall i :: 0 <= i < |d| ==> d[i].0 == Keys(d)[i];
    PutAbsent(d, k, v);
  }

  lemma {:induction false} PutAbsent<K, V>(d: Entries<K, V>, k: K, v: V)
    requires forall i :: 0 <= i < |d| ==> d[i].0 != k
    ensures Put(d, k, v) == d + [(k, v)]
  {
    if d != [] {
      var rest := d[1..];
      assert forall i :: 0 <= i < |rest| ==> rest[i] == d[i + 1];
      PutAbsent(rest, k, v);
      SnocCons(d, (k, v));
      assert Put(d, k, v) == [d[0]] + Put(rest, k, v);
    }
  }

  lemma SnocCons<T>(s: seq<T>, x: T)
    requires s != []
    ensures s + [x] == [s[0]] + (s[1..] + [x])
  {
  }

  lemma PrefixSplit<T>(s: seq<T>, a: nat, b: nat)
    requires a <= b <= |s|
    ensures s[..a] + s[a..b] == s[..b]
  {
  }

  /** A second write to the same key replaces the first. */
  lemma {:induction false} PutPut<K, V>(d: Entries<K, V>, k: K, v: V, w: V)
    ensures Put(Put(d, k, v), k, w) == Put(d, k, w)
  {
    if d != [] && d[0].0 != k {
      PutPut(d[1..], k, v, w);
    }
  }

  /** A key of the dictionary is the key of one of its pairs. */
  lemma KeyHasEntry<K, V>(d: Entries<K, V>, k: K) returns (i: nat)
    requires k in Keys(d)
    ensures i < |d| && d[i].0 == k
  {
    var ks := Keys(d);
    i :| i < |ks| && ks[i] == k;
  }

  /** Writing one key leaves every other key's value as it was. */
  lemma {:induction false} PutOther<K, V>(d: Entries<K, V>, k: K, v: V, k': K)
    requires k' != k
    ensures Lookup(Put(d, k, v), k') == Lookup(d, k')
  {
    if d != [] && d[0].0 != k {
      PutOther(d[1..], k, v, k');
    }
  }

  /** `counts[k] = (counts[k] || 0) + 1`. */
  function Bump<K(==)>(d: Entries<K, nat>, k: K): Entries<K, nat> {
    Put<K, nat>(d, k, Count(d, k) + 1)
  }

  /** `if (counts[k]) counts[k]++; else counts[k] = 1;` bumps the count too. */
  lemma BumpAsIncrement<K>(d: Entries<K, nat>, k: K)
    ensures Bump(d, k) == if Count(d, k) > 0 then Put<K, nat>(d, k, Count(d, k) + 1) else Put<K, nat>(d, k, 1)
  {
  }

  function SumValues<K>(d: Entries<K, nat>): nat {
    if d == [] then 0 else d[0].1 + SumValues(d[1..])
  }

  lemma {:induction false} SumValuesPut<K>(d: Entries<K, nat>, k: K, v: nat)
    ensures SumValues(Put(d, k, v)) == SumValues(d) - Count(d, k) + v
  {
    if d != [] && d[0].0 != k {
      SumValuesPut(d[1..], k, v);
    }
  }

  predicate DistinctKeys<K(==), V>(d: Entries<K, V>) {
    Distinct(Keys(d))
  }

  /** In a dictionary each stored pair is what a lookup of its key finds. */
  lemma {:induction false} LookupOfEntry<K, V>(d: Entries<K, V>, i: nat)
    requires DistinctKeys(d) && i < |d|
    ensures Lookup(d, d[i].0) == Some(d[i].1)
  {
    if i > 0 {
      assert Keys(d)[0] != Keys(d)[i];
      assert DistinctKeys(d[1..]) by {
        forall a, b | 0 <= a < b < |d[1..]| ensures Keys(d[1..])[a] != Keys(d[1..])[b] {
          assert Keys(d)[a + 1] != Keys(d)[b + 1];
        }
      }
      LookupOfEntry(d[1..], i - 1);
    }
  }

  /** Bumping a key adds one to its count and leaves the other counts alone. */
  lemma BumpCount<K>(d: Entries<K, nat>, x: K, k: K)
    ensures Count(Bump(d, x), k) == Count(d, k) + (if k == x then 1 else 0)
  {
    var c: nat := Count(d, x) + 1;
    assert Bump(d, x) == Put(d, x, c);
    if k != x {
      PutOther(d, x, c, k);
    } else {
      assert Lookup(Put(d, x, c), x) == Some(c);
    }
  }

  /** The counting loop `xs.forEach(k => counts[k] = (counts[k] || 0) + 1)` from `{}`. */
  function Tally<K(==)>(xs: seq<K>): Entries<K, nat> {
    if xs == [] then [] else Bump(Tally(xs[..|xs| - 1]), xs[|xs| - 1])
  }

  lemma MultisetSnoc<K>(xs: seq<K>)
    requires xs != []
    ensures multiset(xs) == multiset(xs[..|xs| - 1]) + multiset{xs[|xs| - 1]}
  {
    assert xs == xs[..|xs| - 1] + [xs[|xs| - 1]];
  }

  lemma TallySnoc<K>(xs: seq<K>, x: K)
    ensures Tally(xs + [x]) == Bump(Tally(xs), x)
  {
    assert (xs + [x])[..|xs|] == xs;
  }

  /** Counting one more element of `ys` after all of `xs`. */
  lemma TallyStep<K>(xs: seq<K>, ys: seq<K>, j: nat)
    requires j < |ys|
    ensures Tally(xs + ys[..j + 1]) == Bump(Tally(xs + ys[..j]), ys[j])
  {
    assert xs + ys[..j + 1] == (xs + ys[..j]) + [ys[j]];
    TallySnoc(xs + ys[..j], ys[j]);
  }

  /** `if (counts[k]) counts[k]++; else counts[k] = 1;` continuing a tally of `seen`. */
  method Increment<K(==)>(counts: Entries<K, nat>, ghost seen: seq<K>, k: K) returns (r: Entries<K, nat>)
    requires counts == Tally(seen)
    ensures r == Tally(seen + [k])
  {
    TallySnoc(seen, k);
    BumpAsIncrement(counts, k);
    var c := Count(counts, k);
    if c > 0 {
      r := Put<K, nat>(counts, k, c + 1);
    } else {
      r := Put<K, nat>(counts, k, 1);
    }
  }

  /** The inner `ys.forEach(k => counts[k] = (counts[k] || 0) + 1)` continuing a tally of `seen`. */
  method TallyInto<K(==)>(counts: Entries<K, nat>, ghost seen: seq<K>, ys: seq<K>) returns (r: Entries<K, nat>)
    requires counts == Tally(seen)
    ensures r == Tally(seen + ys)
  {
    r := counts;
    assert seen + ys[..0] == seen;
    for j := 0 to |ys|
      invariant r == Tally(seen + ys[..j])
    {
      TallyStep(seen, ys, j);
      r := Bump(r, ys[j]);
    }
    assert ys[..|ys|] == ys;
  }

  /** Every key counts its occurrences exactly; absent keys count zero. */
  lemma {:induction false} TallyCount<K>(xs: seq<K>, k: K)
    ensures Count(Tally(xs), k) == multiset(xs)[k]
  {
    if xs != [] {
      var init, x := xs[..|xs| - 1], xs[|xs| - 1];
      TallyCount(init, k);
      BumpCount(Tally(init), x, k);
      MultisetSnoc(xs);
    }
  }

  /** The keys are the distinct elements, in order of first appearance. */
  lemma {:induction false} TallyKeys<K>(xs: seq<K>)
    ensures Keys(Tally(xs)) == Dedup(xs)
    ensures DistinctKeys(Tally(xs))
  {
    if xs != [] {
      TallyKeys(xs[..|xs| - 1]);
    }
  }

  /** The counts add up to the number of elements counted. */
  lemma {:induction false} TallySum<K>(xs: seq<K>)
    ensures SumValues(Tally(xs)) == |xs|
  {
    if xs != [] {
      var init := xs[..|xs| - 1];
      TallySum(init);
      TallyCount(init, xs[|xs| - 1]);
      assert xs[|xs| - 1] in multiset(init) ==> true;
      SumValuesPut(Tally(init), xs[|xs| - 1], Count(Tally(init), xs[|xs| - 1]) + 1);
    }
  }

  /** Each stored count is the number of occurrences of its key, and is positive. */
  lemma TallyEntry<K>(xs: seq<K>, i: nat)
    requires i < |Tally(xs)|
    ensures Tally(xs)[i].1 == multiset(xs)[Tally(xs)[i].0] >= 1
    ensures Tally(xs)[i].0 in xs
  {
    var d := Tally(xs);
    TallyKeys(xs);
    LookupOfEntry(d, i);
    TallyCount(xs, d[i].0);
    assert Keys(d)[i] in Dedup(xs);
  }

  /** The number of distinct elements is the number of keys of the tally. */
  lemma TallyDistinctCount<K>(xs: seq<K>)
    ensures |ToSet(xs)| == |Tally(xs)|
  {
    var ks := Dedup(xs);
    assert |Tally(xs)| == |ks| by {
      TallyKeys(xs);
    }
    assert ToSet(ks) == ToSet(xs);
    DistinctCard(ks);
  }

  // ---------------------------------------------------------------------------
  // Copying the kept values of a dictionary, cleaned, into a new one

  /** The entries whose value passes `keep`. */
  function ValueKept<K, V>(keep: V -> bool): ((K, V)) -> bool {
    (e: (K, V)) => keep(e.1)
  }

  /** Every value replaced by its cleaned form; the keys and their order stay. */
  function MapValues<K, V>(d: Entries<K, V>, clean: V -> V): (r: Entries<K, V>)
    ensures Keys(r) == Keys(d)
    ensures forall i :: 0 <= i < |d| ==> r[i].1 == clean(d[i].1)
  {
    seq(|d|, i requires 0 <= i < |d| => (d[i].0, clean(d[i].1)))
  }

  /**
   * The loop `for key, value in data: if keep(value): out[key] = clean(value)` over the
   * given entries, starting from an empty dictionary.
   */
  function Cleanup<K(==), V>(data: Entries<K, V>, keep: V -> bool, clean: V -> V): Entries<K, V> {
    if data == [] then []
    else
      var (k, v) := data[|data| - 1];
      var d := Cleanup(data[..|data| - 1], keep, clean);
      if keep(v) then Put(d, k, clean(v)) else d
  }

  lemma CleanupStep<K, V>(data: Entries<K, V>, i: nat, keep: V -> bool, clean: V -> V)
    requires i < |data|
    ensures keep(data[i].1) ==>
      Cleanup(data[..i + 1], keep, clean) == Put(Cleanup(data[..i], keep, clean), data[i].0, clean(data[i].1))
    ensures !keep(data[i].1) ==> Cleanup(data[..i + 1], keep, clean) == Cleanup(data[..i], keep, clean)
  {
    assert data[..i + 1][..i] == data[..i];
  }

  /** When every kept value cleans to one satisfying `ok`, every stored value satisfies `ok`. */
  lemma CleanedKeptSatisfy<K, V>(d: Entries<K, V>, keep: V -> bool, clean: V -> V, ok: V -> bool)
    requires forall v :: keep(v) ==> ok(clean(v))
    ensures forall i :: 0 <= i < |MapValues(Filter(d, ValueKept(keep)), clean)| ==>
      ok(MapValues(Filter(d, ValueKept(keep)), clean)[i].1)
  {
    var kept := Filter(d, ValueKept(keep));
    var r := MapValues(kept, clean);
    assert |r| == |kept| by {
      assert |Keys(r)| == |Keys(kept)|;
    }
    FilterMembers(d, ValueKept(keep));
    forall i | 0 <= i < |r| ensures ok(r[i].1) {
      assert kept[i] in kept;
      assert r[i].1 == clean(kept[i].1);
    }
  }

  lemma KeysOfFilter<K, V>(d: Entries<K, V>, p: ((K, V)) -> bool, k: K)
    requires k in Keys(Filter(d, p))
    ensures k in Keys(d)
  {
    var i := KeyHasEntry(Filter(d, p), k);
    FilterMembers(d, p);
    assert Filter(d, p)[i] in d;
    var j :| 0 <= j < |d| && d[j] == Filter(d, p)[i];
    assert Keys(d)[j] == k;
  }

  lemma MapValuesAppend<K, V>(a: Entries<K, V>, b: Entries<K, V>, clean: V -> V)
    ensures MapValues(a + b, clean) == MapValues(a, clean) + MapValues(b, clean)
  {
    var l, r := MapValues(a + b, clean), MapValues(a, clean) + MapValues(b, clean);
    assert |l| == |r|;
    forall i | 0 <= i < |l| ensures l[i] == r[i] {
      if i < |a| {
        assert (a + b)[i] == a[i];
      } else {
        assert (a + b)[i] == b[i - |a|];
      }
    }
  }

  /** In a dictionary the last key does not occur earlier, not even among the kept entries. */
  lemma LastKeyFresh<K, V>(data: Entries<K, V>, p: ((K, V)) -> bool)
    requires DistinctKeys(data) && data != []
    ensures data[|data| - 1].0 !in Keys(Filter(data[..|data| - 1], p))
  {
    var init, k := data[..|data| - 1], data[|data| - 1].0;
    if k in Keys(Filter(init, p)) {
      KeysOfFilter(init, p, k);
      var i := KeyHasEntry(init, k);
    }
  }

  lemma DistinctKeysInit<K, V>(data: Entries<K, V>)
    requires DistinctKeys(data) && data != []
    ensures DistinctKeys(data[..|data| - 1])
  {
    var init := data[..|data| - 1];
    assert forall i :: 0 <= i < |init| ==> Keys(init)[i] == Keys(data)[i];
  }

  /**
   * On a dictionary (distinct keys) the cleaning loop keeps, in their order, exactly
   * the entries whose value passes `keep`, each with its value cleaned.
   */
  lemma {:induction false} CleanupSpec<K, V>(data: Entries<K, V>, keep: V -> bool, clean: V -> V)
    requires DistinctKeys(data)
    ensures Cleanup(data, keep, clean) == MapValues(Filter(data, ValueKept(keep)), clean)
  {
    if data != [] {
      var init, last := data[..|data| - 1], data[|data| - 1];
      var p := ValueKept(keep);
      var kept := if p(last) then [last] else [];
      assert Filter(data, p) == Filter(init, p) + kept by {
        FilterSnoc(data, p);
      }
      assert Cleanup(init, keep, clean) == MapValues(Filter(init, p), clean) by {
        DistinctKeysInit(data);
        CleanupSpec(init, keep, clean);
      }
      MapValuesAppend(Filter(init, p), kept, clean);
      if keep(last.1) {
        assert last.0 !in Keys(Cleanup(init, keep, clean)) by {
          LastKeyFresh(data, p);
        }
        PutNew(Cleanup(init, keep, clean), last.0, clean(last.1));
        assert MapValues(kept, clean) == [(last.0, clean(last.1))];
      } else {
        assert kept == [];
      }
    }
  }
}
