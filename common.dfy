/**
 * Shared vocabulary for the advisor model: optional values, Python's insertion-ordered
 * dictionaries, list filters, de-duplication, averages and the stable descending sort that
 * Python's `sorted(..., reverse=True)` performs.
 */
module Common {

  datatype Option<T> = None | Some(value: T)

  /** `d.get(k, default)` on one looked-up value: the value when present, else the default. */
  function OrElse<T>(v: Option<T>, default: T): T
  {
    if v.Some? then v.value else default
  }

  /** `[x]` when the test holds, else nothing: one conditional `append`. */
  function When<T>(b: bool, x: T): seq<T>
  {
    if b then [x] else []
  }

  /** Membership in five concatenated lists. */
  lemma InFive<T>(a: seq<T>, b: seq<T>, c: seq<T>, d: seq<T>, e: seq<T>, x: T)
    ensures x in a + b + c + d + e <==> x in a || x in b || x in c || x in d || x in e
  {
  }

  function Min(a: int, b: int): int { if a <= b then a else b }

  function MinReal(a: real, b: real): real { if a <= b then a else b }

  function MaxReal(a: real, b: real): real { if a >= b then a else b }

  /** Python's `xs[:n]`. */
  function Take<T(!new)>(xs: seq<T>, n: nat): (r: seq<T>)
    ensures |r| == Min(n, |xs|)
    ensures r <= xs
  {
    if n <= |xs| then xs[..n] else xs
  }

  /** `xs[::-1]`. */
  function Reverse<T>(xs: seq<T>): (r: seq<T>)
    ensures |r| == |xs|
    ensures forall i :: 0 <= i < |xs| ==> r[i] == xs[|xs| - 1 - i]
  {
    seq(|xs|, i requires 0 <= i < |xs| => xs[|xs| - 1 - i])
  }

  // ---------------------------------------------------------------------------------------
  // Filters (list comprehensions with an `if`)
  // ---------------------------------------------------------------------------------------

  /** `[x for x in xs if p(x)]`, written from the end so that a loop over a prefix extends it. */
  function Filter<T(!new)>(xs: seq<T>, p: T -> bool): (r: seq<T>)
    ensures |r| <= |xs|
  {
    if |xs| == 0 then [] else Filter(xs[..|xs| - 1], p) + (if p(xs[|xs| - 1]) then [xs[|xs| - 1]] else [])
  }

  /** Filtering a list extended by one element extends the filtered list by it when it passes. */
  lemma FilterSnoc<T(!new)>(xs: seq<T>, x: T, p: T -> bool)
    ensures Filter(xs + [x], p) == Filter(xs, p) + When(p(x), x)
  {
    assert (xs + [x])[..|xs|] == xs;
  }

  lemma FilterSingle<T(!new)>(x: T, p: T -> bool)
    ensures Filter([x], p) == When(p(x), x)
  {
    assert [x][..0] == [];
  }

  lemma {:induction false} FilterConcat<T(!new)>(a: seq<T>, b: seq<T>, p: T -> bool)
    ensures Filter(a + b, p) == Filter(a, p) + Filter(b, p)
    decreases |b|
  {
    if |b| == 0 {
      assert a + b == a;
    } else {
      assert (a + b)[..|a + b| - 1] == a + b[..|b| - 1];
      FilterConcat(a, b[..|b| - 1], p);
    }
  }

  /** An element survives a filter exactly when it is in the list and satisfies the test. */
  lemma {:induction false} FilterMembers<T(!new)>(xs: seq<T>, p: T -> bool)
    ensures forall x :: x in Filter(xs, p) <==> x in xs && p(x)
    decreases |xs|
  {
    if |xs| > 0 {
      FilterMembers(xs[..|xs| - 1], p);
      assert xs == xs[..|xs| - 1] + [xs[|xs| - 1]];
    }
  }

  /** The negation of a test, so that "kept" and "dropped" filters can be named. */
  function Not<T(!new)>(p: T -> bool): T -> bool
  {
    x => !p(x)
  }

  /** The elements kept and the elements dropped by a filter add up to the list. */
  lemma {:induction false} FilterPartition<T(!new)>(xs: seq<T>, p: T -> bool)
    ensures multiset(Filter(xs, p)) + multiset(Filter(xs, Not(p))) == multiset(xs)
    decreases |xs|
  {
    if |xs| > 0 {
      FilterPartition(xs[..|xs| - 1], p);
      FilterPartitionStep(xs, p);
    }
  }

  /** The last element goes to exactly one side of the partition. */
  lemma FilterPartitionStep<T(!new)>(xs: seq<T>, p: T -> bool)
    requires |xs| > 0
    ensures var init := xs[..|xs| - 1];
      multiset(Filter(xs, p)) + multiset(Filter(xs, Not(p)))
        == multiset(Filter(init, p)) + multiset(Filter(init, Not(p))) + multiset{xs[|xs| - 1]}
    ensures multiset(xs) == multiset(xs[..|xs| - 1]) + multiset{xs[|xs| - 1]}
  {
    var init, x := xs[..|xs| - 1], xs[|xs| - 1];
    var kept, dropped := (if p(x) then [x] else []), (if !p(x) then [x] else []);
    assert multiset(Filter(xs, p)) == multiset(Filter(init, p)) + multiset(kept) by {
      assert Filter(xs, p) == Filter(init, p) + kept;
    }
    assert multiset(Filter(xs, Not(p))) == multiset(Filter(init, Not(p))) + multiset(dropped) by {
      assert Not(p)(x) == !p(x);
      assert Filter(xs, Not(p)) == Filter(init, Not(p)) + dropped;
    }
    assert multiset(kept) + multiset(dropped) == multiset{x};
    assert xs == init + [x];
  }

  /** Membership in a list, as a predicate. */
  function In<T(==)>(xs: seq<T>): T -> bool
  {
    (x: T) => x in xs
  }

  function NotIn<T(==)>(xs: seq<T>): T -> bool
  {
    (x: T) => x !in xs
  }

  /** The predicate "key(y) == v", used to state stability of a sort. */
  function KeyIs<T(!new)>(key: T -> real, v: real): T -> bool
  {
    y => key(y) == v
  }

  // ---------------------------------------------------------------------------------------
  // Sequences of distinct elements
  // ---------------------------------------------------------------------------------------

  predicate Distinct<T(==)>(xs: seq<T>)
  {
    forall i, j :: 0 <= i < j < |xs| ==> xs[i] != xs[j]
  }

  /** `dict.fromkeys(xs)` / de-duplication keeping the first occurrence of each element. */
  function Dedup<T(==,!new)>(xs: seq<T>): (r: seq<T>)
    ensures Distinct(r)
    ensures forall x :: x in r <==> x in xs
    ensures |r| <= |xs|
  {
    if |xs| == 0 then []
    else
      var d := Dedup(xs[..|xs| - 1]);
      if xs[|xs| - 1] in d then d else d + [xs[|xs| - 1]]
  }

  lemma DedupSnoc<T(!new)>(xs: seq<T>, x: T)
    ensures Dedup(xs + [x]) == if x in Dedup(xs) then Dedup(xs) else Dedup(xs) + [x]
  {
    assert (xs + [x])[..|xs|] == xs;
  }

  /** Number of occurrences of `x` in `xs` (Python's `xs.count(x)`). */
  function Count<T(==)>(xs: seq<T>, x: T): nat
  {
    multiset(xs)[x]
  }

  // ---------------------------------------------------------------------------------------
  // Insertion-ordered dictionaries
  // ---------------------------------------------------------------------------------------

  /** A Python dict with string keys: the association list keeps insertion order. */
  type Dict<V> = seq<(string, V)>

  function Keys<V>(d: Dict<V>): (r: seq<string>)
    ensures |r| == |d|
  {
    seq(|d|, i requires 0 <= i < |d| => d[i].0)
  }

  function Values<V>(d: Dict<V>): (r: seq<V>)
    ensures |r| == |d|
  {
    seq(|d|, i requires 0 <= i < |d| => d[i].1)
  }

  predicate DistinctKeys<V>(d: Dict<V>)
  {
    Distinct(Keys(d))
  }

  lemma KeysCons<V>(e: (string, V), d: Dict<V>)
    ensures Keys([e] + d) == [e.0] + Keys(d)
  {
    assert ([e] + d)[1..] == d;
  }

  /** `d.get(k)`: the value of the first entry with key `k`. */
  function Get<V>(d: Dict<V>, k: string): (r: Option<V>)
  {
    if |d| == 0 then None
    else if d[0].0 == k then Some(d[0].1)
    else Get(d[1..], k)
  }

  function GetOr<V>(d: Dict<V>, k: string, default: V): V
  {
    match Get(d, k)
    case Some(v) => v
    case None => default
  }

  /**
   * `d[k] = v`: an existing key keeps its position and gets the new value; a new key
   * goes to the end.
   */
  function Put<V>(d: Dict<V>, k: string, v: V): Dict<V>
  {
    if |d| == 0 then [(k, v)]
    else if d[0].0 == k then [(k, v)] + d[1..]
    else [d[0]] + Put(d[1..], k, v)
  }

  /** `d.get(k)` is None exactly when `k` is not a key. */
  lemma {:induction false} GetNone<V>(d: Dict<V>, k: string)
    ensures Get(d, k).None? <==> k !in Keys(d)
    decreases |d|
  {
    if |d| > 0 {
      KeysCons(d[0], d[1..]);
      assert d == [d[0]] + d[1..];
      if d[0].0 != k {
        GetNone(d[1..], k);
      }
    }
  }

  /** Assignment keeps the keys in place and appends a new one. */
  lemma {:induction false} PutKeys<V>(d: Dict<V>, k: string, v: V)
    ensures Keys(Put(d, k, v)) == if k in Keys(d) then Keys(d) else Keys(d) + [k]
    decreases |d|
  {
    if |d| > 0 {
      assert d == [d[0]] + d[1..];
      KeysCons(d[0], d[1..]);
      if d[0].0 == k {
        KeysCons((k, v), d[1..]);
      } else {
        PutKeys(d[1..], k, v);
        KeysCons(d[0], Put(d[1..], k, v));
      }
    }
  }

  /** A value read from a dict is the value of one of its entries. */
  lemma {:induction false} GetEntry<V>(d: Dict<V>, k: string)
    requires Get(d, k).Some?
    ensures exists i :: 0 <= i < |d| && d[i] == (k, Get(d, k).value)
    decreases |d|
  {
    if d[0].0 != k {
      GetEntry(d[1..], k);
      var i :| 0 <= i < |d[1..]| && d[1..][i] == (k, Get(d[1..], k).value);
      assert d[i + 1] == d[1..][i];
    }
  }

  /** Every entry after `d[k] = v` is the new one or an entry that was already there. */
  lemma {:induction false} PutEntries<V>(d: Dict<V>, k: string, v: V)
    ensures forall j :: 0 <= j < |Put(d, k, v)| ==> Put(d, k, v)[j] == (k, v) || Put(d, k, v)[j] in d
    decreases |d|
  {
    if |d| > 0 && d[0].0 != k {
      PutEntries(d[1..], k, v);
      var r := Put(d, k, v);
      assert r == [d[0]] + Put(d[1..], k, v);
      forall j | 0 <= j < |r|
        ensures r[j] == (k, v) || r[j] in d
      {
        if j > 0 {
          assert r[j] == Put(d[1..], k, v)[j - 1];
          assert r[j] in d[1..] ==> r[j] in d;
        }
      }
    } else if |d| > 0 {
      var r := Put(d, k, v);
      assert forall j :: 1 <= j < |r| ==> r[j] == d[j];
    }
  }

  /** A second assignment to the same key overrides the first. */
  lemma {:induction false} PutTwice<V>(d: Dict<V>, k: string, v: V, w: V)
    ensures Put(Put(d, k, v), k, w) == Put(d, k, w)
    decreases |d|
  {
    if |d| > 0 && d[0].0 != k {
      PutTwice(d[1..], k, v, w);
      assert Put(d, k, v)[1..] == Put(d[1..], k, v);
    }
  }

  /** Reading a dict extended by one entry at the end. */
  lemma {:induction false} GetSnoc<V>(d: Dict<V>, k0: string, v0: V, k: string)
    ensures Get(d + [(k0, v0)], k) == if k in Keys(d) then Get(d, k) else if k == k0 then Some(v0) else None
    decreases |d|
  {
    if |d| > 0 {
      assert (d + [(k0, v0)])[1..] == d[1..] + [(k0, v0)];
      KeysCons(d[0], d[1..]);
      assert d == [d[0]] + d[1..];
      GetSnoc(d[1..], k0, v0, k);
    }
  }

  /** Assignment keeps the keys of a dict distinct. */
  lemma PutDistinct<V>(d: Dict<V>, k: string, v: V)
    requires DistinctKeys(d)
    ensures DistinctKeys(Put(d, k, v))
  {
    PutKeys(d, k, v);
  }

  /** Equal dictionaries read alike (spares the solver the step from extensional equality). */
  lemma GetOfEqual<V>(d: Dict<V>, d': Dict<V>, k: string)
    requires d == d'
    ensures Get(d, k) == Get(d', k)
  {
  }

  /** After `d[k] = v`, `d.get(k)` is `v` and every other key reads as before. */
  lemma {:induction false} PutGet<V>(d: Dict<V>, k: string, v: V, k': string)
    ensures Get(Put(d, k, v), k') == if k' == k then Some(v) else Get(d, k')
    decreases |d|
  {
    if |d| > 0 && d[0].0 != k {
      PutGet(d[1..], k, v, k');
      assert Put(d, k, v)[1..] == Put(d[1..], k, v);
    }
  }

  // ---------------------------------------------------------------------------------------
  // Sums, averages and extremes
  // ---------------------------------------------------------------------------------------

  function Sum(xs: seq<real>): real
  {
    if |xs| == 0 then 0.0 else Sum(xs[..|xs| - 1]) + xs[|xs| - 1]
  }

  /** `part / whole * 100`, or 0 for an empty whole. */
  function Percent(part: nat, whole: nat): (r: real)
    ensures whole == 0 ==> r == 0.0
    ensures part <= whole ==> 0.0 <= r <= 100.0
    ensures 0 < whole == part ==> r == 100.0
  {
    if whole == 0 then 0.0
    else
      assert part <= whole ==> part as real / whole as real <= 1.0;
      (part as real / whole as real) * 100.0
  }

  /** Within a whole, the percentage is 100 exactly when the part is all of a non-empty whole. */
  lemma PercentFull(part: nat, whole: nat)
    requires part <= whole
    ensures Percent(part, whole) == 100.0 <==> 0 < whole == part
  {
    if 0 < whole && Percent(part, whole) == 100.0 {
      var q := part as real / whole as real;
      assert q * 100.0 == 100.0;
      assert q == 1.0;
      assert part as real == whole as real;
    }
  }

  /** Of a non-empty whole, the percentage is 0 exactly when the part is. */
  lemma PercentZero(part: nat, whole: nat)
    requires whole > 0
    ensures Percent(part, whole) == 0.0 <==> part == 0
  {
    if part > 0 {
      assert part as real / whole as real > 0.0;
    }
  }

  /** `sum(xs) / len(xs) if xs else 0`. */
  function Mean(xs: seq<real>): real
  {
    if |xs| == 0 then 0.0 else Sum(xs) / (|xs| as real)
  }

  lemma {:induction false} SumBounds(xs: seq<real>, lo: real, hi: real)
    requires forall i :: 0 <= i < |xs| ==> lo <= xs[i] <= hi
    ensures (|xs| as real) * lo <= Sum(xs) <= (|xs| as real) * hi
    decreases |xs|
  {
    if |xs| > 0 {
      var init := xs[..|xs| - 1];
      var m, n := |init| as real, |xs| as real;
      assert forall i :: 0 <= i < |init| ==> init[i] == xs[i];
      SumBounds(init, lo, hi);
      assert m * lo <= Sum(init) <= m * hi;
      assert Sum(xs) == Sum(init) + xs[|xs| - 1];
      assert lo <= xs[|xs| - 1] <= hi;
      assert n == m + 1.0;
      assert n * lo == m * lo + lo;
      assert n * hi == m * hi + hi;
    }
  }

  /** A non-empty average lies between the smallest and the largest bound of its items. */
  lemma MeanBounds(xs: seq<real>, lo: real, hi: real)
    requires |xs| > 0
    requires forall i :: 0 <= i < |xs| ==> lo <= xs[i] <= hi
    ensures lo <= Mean(xs) <= hi
  {
    SumBounds(xs, lo, hi);
    var n := |xs| as real;
    assert Sum(xs) / n >= lo by {
      assert Sum(xs) >= n * lo;
    }
    assert Sum(xs) / n <= hi by {
      assert Sum(xs) <= n * hi;
    }
  }

  /** Python's `max(xs)` on a non-empty list. */
  function MaxOf(xs: seq<real>): (r: real)
    requires |xs| > 0
    ensures forall i :: 0 <= i < |xs| ==> xs[i] <= r
    ensures exists i :: 0 <= i < |xs| && xs[i] == r
  {
    if |xs| == 1 then xs[0]
    else
      var m := MaxOf(xs[..|xs| - 1]);
      assert forall i :: 0 <= i < |xs| - 1 ==> xs[..|xs| - 1][i] == xs[i];
      MaxReal(m, xs[|xs| - 1])
  }

  /** The average of a non-empty list never exceeds its maximum. */
  lemma MeanAtMostMax(xs: seq<real>)
    requires |xs| > 0
    ensures Mean(xs) <= MaxOf(xs)
  {
    MeanBounds(xs, Lowest(xs), MaxOf(xs));
  }

  function Lowest(xs: seq<real>): (r: real)
    requires |xs| > 0
    ensures forall i :: 0 <= i < |xs| ==> r <= xs[i]
  {
    if |xs| == 1 then xs[0]
    else
      var m := Lowest(xs[..|xs| - 1]);
      assert forall i :: 0 <= i < |xs| - 1 ==> xs[..|xs| - 1][i] == xs[i];
      MinReal(m, xs[|xs| - 1])
  }

  // ---------------------------------------------------------------------------------------
  // Stable descending sort: Python's `sorted(xs, key=key, reverse=True)`
  // ---------------------------------------------------------------------------------------

  predicate SortedDesc<T(!new)>(xs: seq<T>, key: T -> real)
  {
    forall i, j :: 0 <= i < j < |xs| ==> key(xs[i]) >= key(xs[j])
  }

  /** Inserts `x` after every element whose key is at least `x`'s key. */
  function InsertDesc<T(!new)>(sorted: seq<T>, x: T, key: T -> real): (r: seq<T>)
    ensures multiset(r) == multiset(sorted) + multiset{x}
  {
    if |sorted| == 0 then [x]
    else if key(sorted[0]) >= key(x) then
      assert sorted == [sorted[0]] + sorted[1..];
      [sorted[0]] + InsertDesc(sorted[1..], x, key)
    else
      [x] + sorted
  }

  /** A head that outranks every element of a descending tail keeps the list descending. */
  lemma ConsSorted<T(!new)>(h: T, t: seq<T>, key: T -> real)
    requires SortedDesc(t, key)
    requires forall j :: 0 <= j < |t| ==> key(h) >= key(t[j])
    ensures SortedDesc([h] + t, key)
  {
    var r := [h] + t;
    forall i, j | 0 <= i < j < |r| ensures key(r[i]) >= key(r[j]) {
      assert r[j] == t[j - 1];
      if i > 0 {
        assert r[i] == t[i - 1];
      }
    }
  }

  /** A bound on every key of a list and on `x` bounds every key after the insertion. */
  lemma InsertDescBounded<T(!new)>(sorted: seq<T>, x: T, key: T -> real, b: real)
    requires forall j :: 0 <= j < |sorted| ==> b >= key(sorted[j])
    requires b >= key(x)
    ensures forall j :: 0 <= j < |InsertDesc(sorted, x, key)| ==> b >= key(InsertDesc(sorted, x, key)[j])
  {
    var t := InsertDesc(sorted, x, key);
    forall j | 0 <= j < |t| ensures b >= key(t[j]) {
      assert t[j] in multiset(t);
      if t[j] != x {
        assert t[j] in multiset(sorted);
        var m :| 0 <= m < |sorted| && sorted[m] == t[j];
      }
    }
  }

  lemma {:induction false} InsertDescSorted<T(!new)>(sorted: seq<T>, x: T, key: T -> real)
    requires SortedDesc(sorted, key)
    ensures SortedDesc(InsertDesc(sorted, x, key), key)
    decreases |sorted|
  {
    if |sorted| == 0 {
      assert InsertDesc(sorted, x, key) == [x];
    } else if key(sorted[0]) >= key(x) {
      var rest := sorted[1..];
      SortedTail(sorted, key);
      InsertDescSorted(rest, x, key);
      assert forall j :: 0 <= j < |rest| ==> rest[j] == sorted[j + 1];
      var h, t := sorted[0], InsertDesc(rest, x, key);
      InsertDescBounded(rest, x, key, key(h));
      assert forall j :: 0 <= j < |t| ==> key(h) >= key(t[j]);
      ConsSorted(h, t, key);
      assert InsertDesc(sorted, x, key) == [h] + t;
    } else {
      assert forall j :: 0 <= j < |sorted| ==> key(sorted[0]) >= key(sorted[j]);
      ConsSorted(x, sorted, key);
    }
  }

  function SortDesc<T(!new)>(xs: seq<T>, key: T -> real): (r: seq<T>)
    ensures multiset(r) == multiset(xs)
    ensures |r| == |xs|
    ensures SortedDesc(r, key)
  {
    if |xs| == 0 then []
    else
      assert xs == xs[..|xs| - 1] + [xs[|xs| - 1]];
      var s := SortDesc(xs[..|xs| - 1], key);
      InsertDescSorted(s, xs[|xs| - 1], key);
      var r := InsertDesc(s, xs[|xs| - 1], key);
      assert |r| == |multiset(r)|;
      r
  }

  /** When `x` outranks the head, the descending list holds nothing with `x`'s key. */
  lemma NoneWithHigherKey<T(!new)>(sorted: seq<T>, key: T -> real, v: real)
    requires SortedDesc(sorted, key)
    requires |sorted| > 0 && key(sorted[0]) < v
    ensures Filter(sorted, KeyIs(key, v)) == []
  {
    FilterMembers(sorted, KeyIs(key, v));
  }

  lemma SortedTail<T(!new)>(sorted: seq<T>, key: T -> real)
    requires SortedDesc(sorted, key) && |sorted| > 0
    ensures SortedDesc(sorted[1..], key)
  {
    var rest := sorted[1..];
    forall i, j | 0 <= i < j < |rest| ensures key(rest[i]) >= key(rest[j]) {
      assert rest[i] == sorted[i + 1] && rest[j] == sorted[j + 1];
    }
  }

  lemma {:induction false} InsertDescStable<T(!new)>(sorted: seq<T>, x: T, key: T -> real, v: real)
    requires SortedDesc(sorted, key)
    ensures Filter(InsertDesc(sorted, x, key), KeyIs(key, v))
         == Filter(sorted, KeyIs(key, v)) + Filter([x], KeyIs(key, v))
    decreases |sorted|
  {
    var p := KeyIs(key, v);
    if |sorted| == 0 {
      assert InsertDesc(sorted, x, key) == [x];
      assert [x][..0] == [];
    } else if key(sorted[0]) >= key(x) {
      var rest := sorted[1..];
      SortedTail(sorted, key);
      InsertDescStable(rest, x, key, v);
      assert sorted == [sorted[0]] + rest;
      FilterConsShift(sorted[0], InsertDesc(rest, x, key), rest, [x], p);
    } else {
      InsertDescStableAhead(sorted, x, key, v);
    }
  }

  /** Filtering after a common head, when the tails' filters differ by a suffix. */
  lemma FilterConsShift<T(!new)>(h: T, t: seq<T>, rest: seq<T>, tail: seq<T>, p: T -> bool)
    requires Filter(t, p) == Filter(rest, p) + Filter(tail, p)
    ensures Filter([h] + t, p) == Filter([h] + rest, p) + Filter(tail, p)
  {
    FilterConcat([h], t, p);
    FilterConcat([h], rest, p);
    AppendAssoc(Filter([h], p), Filter(rest, p), Filter(tail, p));
  }

  /** A non-empty list is its front followed by its last element. */
  lemma LastSplit<T>(xs: seq<T>)
    requires |xs| > 0
    ensures xs == xs[..|xs| - 1] + [xs[|xs| - 1]]
  {
  }

  lemma AppendAssoc<T>(a: seq<T>, b: seq<T>, c: seq<T>)
    ensures a + (b + c) == (a + b) + c
  {
  }

  /** Inserting ahead of the head: nothing after `x` shares its key. */
  lemma InsertDescStableAhead<T(!new)>(sorted: seq<T>, x: T, key: T -> real, v: real)
    requires SortedDesc(sorted, key)
    requires |sorted| > 0 && key(sorted[0]) < key(x)
    ensures Filter(InsertDesc(sorted, x, key), KeyIs(key, v))
         == Filter(sorted, KeyIs(key, v)) + Filter([x], KeyIs(key, v))
  {
    var p := KeyIs(key, v);
    assert InsertDesc(sorted, x, key) == [x] + sorted;
    FilterConcat([x], sorted, p);
    if key(x) == v {
      NoneWithHigherKey(sorted, key, v);
      PutFirstOrLast(Filter([x], p));
    } else {
      FilterSingle(x, p);
      PutFirstOrLast(Filter(sorted, p));
    }
  }

  /** Joining a list with an empty one on either side gives the list. */
  lemma PutFirstOrLast<T>(xs: seq<T>)
    ensures xs + [] == [] + xs == xs
  {
  }

  /**
   * Stability: the elements sharing one key value come out in their input order, which is
   * the guarantee Python gives for `sorted(..., reverse=True)`.
   */
  lemma {:induction false} SortDescStable<T(!new)>(xs: seq<T>, key: T -> real, v: real)
    ensures Filter(SortDesc(xs, key), KeyIs(key, v)) == Filter(xs, KeyIs(key, v))
    decreases |xs|
  {
    if |xs| > 0 {
      SortDescStable(xs[..|xs| - 1], key, v);
      SortDescStableStep(xs, key, v);
    }
  }

  /** Sorting one more element adds it to the filter of its key at the end. */
  lemma SortDescStableStep<T(!new)>(xs: seq<T>, key: T -> real, v: real)
    requires |xs| > 0
    ensures var init, x, p := xs[..|xs| - 1], xs[|xs| - 1], KeyIs(key, v);
      Filter(SortDesc(xs, key), p) == Filter(SortDesc(init, key), p) + Filter([x], p)
      && Filter(xs, p) == Filter(init, p) + Filter([x], p)
  {
    var init, x, p := xs[..|xs| - 1], xs[|xs| - 1], KeyIs(key, v);
    var s := SortDesc(init, key);
    assert SortDesc(xs, key) == InsertDesc(s, x, key);
    InsertDescStable(s, x, key, v);
    LastSplit(xs);
    FilterConcat(init, [x], p);
  }

  // ---------------------------------------------------------------------------------------
  // random.shuffle
  // ---------------------------------------------------------------------------------------

  function Swap<T>(xs: seq<T>, i: nat, j: nat): (r: seq<T>)
    requires i < |xs| && j < |xs|
    ensures |r| == |xs| && multiset(r) == multiset(xs)
  {
    xs[i := xs[j]][j := xs[i]]
  }

  /**
   * Python's `random.shuffle`: Fisher-Yates from the last position down to position 1,
   * where the k-th step swaps position i with `draws[k] % (i + 1)` (a missing draw counts
   * as 0). The draws stand for the random generator's output.
   */
  function Shuffle<T>(xs: seq<T>, draws: seq<nat>): (r: seq<T>)
    ensures |r| == |xs| && multiset(r) == multiset(xs)
  {
    ShuffleDown(xs, |xs|, draws)
  }

  function ShuffleDown<T>(xs: seq<T>, n: nat, draws: seq<nat>): (r: seq<T>)
    requires n <= |xs|
    ensures |r| == |xs| && multiset(r) == multiset(xs)
    decreases n
  {
    if n <= 1 then xs
    else ShuffleDown(Swap(xs, n - 1, SwapTarget(|xs|, n, draws)), n - 1, draws)
  }

  /** The position swapped with position `n - 1`: the next draw modulo `n`. */
  function SwapTarget(len: nat, n: nat, draws: seq<nat>): (j: nat)
    requires 1 <= n <= len
    ensures j < n
  {
    var k := len - n;
    (if k < |draws| then draws[k] else 0) % n
  }

  lemma ShuffleStep<T>(xs: seq<T>, n: nat, draws: seq<nat>)
    requires 1 < n <= |xs|
    ensures ShuffleDown(xs, n, draws)
         == ShuffleDown(Swap(xs, n - 1, SwapTarget(|xs|, n, draws)), n - 1, draws)
  {
  }

  method SwapElements<T>(a: array<T>, i: nat, j: nat)
    requires i < a.Length && j < a.Length
    modifies a
    ensures a[..] == Swap(old(a[..]), i, j)
  {
    a[i], a[j] := a[j], a[i];
  }

  /** `random.shuffle(a)` in place: the same swaps as `Shuffle`, applied to an array. */
  method ShuffleArray<T>(a: array<T>, draws: seq<nat>)
    modifies a
    ensures a[..] == Shuffle(old(a[..]), draws)
  {
    var n := a.Length;
    while n > 1
      invariant 0 <= n <= a.Length
      invariant ShuffleDown(a[..], n, draws) == Shuffle(old(a[..]), draws)
      decreases n
    {
      var i, j := n - 1, SwapTarget(a.Length, n, draws);
      ShuffleStep(a[..], n, draws);
      SwapElements(a, i, j);
      n := n - 1;
    }
  }

  /** A filter that keeps everything returns the list itself. */
  lemma {:induction false} FilterAll<T(!new)>(xs: seq<T>, p: T -> bool)
    requires forall i :: 0 <= i < |xs| ==> p(xs[i])
    ensures Filter(xs, p) == xs
    decreases |xs|
  {
    if |xs| > 0 {
      FilterAll(xs[..|xs| - 1], p);
    }
  }

  /** A filter that keeps nothing returns the empty list. */
  lemma {:induction false} FilterNone<T(!new)>(xs: seq<T>, p: T -> bool)
    requires forall i :: 0 <= i < |xs| ==> !p(xs[i])
    ensures Filter(xs, p) == []
    decreases |xs|
  {
    if |xs| > 0 {
      FilterNone(xs[..|xs| - 1], p);
    }
  }

  /** The number of kept elements depends only on the multiset of the list. */
  lemma {:induction false} FilterLengthPermutation<T(!new)>(xs: seq<T>, ys: seq<T>, p: T -> bool)
    requires multiset(xs) == multiset(ys)
    ensures |Filter(xs, p)| == |Filter(ys, p)|
    decreases |xs|
  {
    if |xs| == 0 {
      assert |ys| == |multiset(ys)|;
    } else {
      var x := xs[|xs| - 1];
      var init := xs[..|xs| - 1];
      assert xs == init + [x];
      assert x in multiset(ys);
      var m :| 0 <= m < |ys| && ys[m] == x;
      var rest := ys[..m] + ys[m + 1..];
      assert ys == ys[..m] + [x] + ys[m + 1..];
      assert multiset(ys) == multiset(ys[..m]) + multiset([x]) + multiset(ys[m + 1..]);
      assert multiset(xs) == multiset(init) + multiset([x]);
      assert multiset(rest) == multiset(ys[..m]) + multiset(ys[m + 1..]);
      assert multiset(init) == multiset(xs) - multiset{x};
      assert multiset(rest) == multiset(ys) - multiset{x};
      FilterLengthPermutation(init, rest, p);
      FilterConcat(ys[..m] + [x], ys[m + 1..], p);
      FilterConcat(ys[..m], [x], p);
      FilterConcat(ys[..m], ys[m + 1..], p);
      FilterConcat(init, [x], p);
      assert [x][..0] == [];
    }
  }

  /** A filter that drops some element is strictly shorter than its input. */
  lemma {:induction false} FilterShorter<T(!new)>(xs: seq<T>, p: T -> bool, i: nat)
    requires i < |xs| && !p(xs[i])
    ensures |Filter(xs, p)| < |xs|
    decreases |xs|
  {
    if i < |xs| - 1 {
      FilterShorter(xs[..|xs| - 1], p, i);
    }
  }

  /** A list of distinct elements, each drawn from `b`, is no longer than `b`. */
  lemma {:induction false} DistinctWithinLength<T(!new)>(a: seq<T>, b: seq<T>)
    requires Distinct(a) && forall x :: x in a ==> x in b
    ensures |a| <= |b|
    decreases |a|
  {
    if |a| > 0 {
      var x := a[|a| - 1];
      var init := a[..|a| - 1];
      var p := (y: T) => y != x;
      var rest := Filter(b, p);
      FilterMembers(b, p);
      forall z | z in init
        ensures z in rest
      {
        var i :| 0 <= i < |init| && init[i] == z;
        assert a[i] == z;
      }
      assert x in b;
      var j :| 0 <= j < |b| && b[j] == x;
      FilterShorter(b, p, j);
      DistinctWithinLength(init, rest);
    }
  }

  /** A prefix keeps no more elements than the whole list. */
  lemma FilterPrefixLength<T(!new)>(xs: seq<T>, n: nat, p: T -> bool)
    requires n <= |xs|
    ensures |Filter(xs[..n], p)| <= |Filter(xs, p)|
  {
    assert xs == xs[..n] + xs[n..];
    FilterConcat(xs[..n], xs[n..], p);
  }

  lemma TwoOccurrences<T>(a: seq<T>, i: nat, j: nat)
    requires i < j < |a| && a[i] == a[j]
    ensures multiset(a)[a[i]] >= 2
  {
    assert a[..j + 1] == a[..j] + [a[j]];
    assert a[i] in a[..j];
    assert a == a[..j + 1] + a[j + 1..];
  }

  lemma {:induction false} DistinctMultiplicity<T>(a: seq<T>)
    requires Distinct(a)
    ensures forall x :: multiset(a)[x] <= 1
    decreases |a|
  {
    if |a| > 0 {
      var init := a[..|a| - 1];
      DistinctMultiplicity(init);
      assert a == init + [a[|a| - 1]];
      assert a[|a| - 1] !in init;
    }
  }

  /** Reordering a list of distinct elements leaves them distinct. */
  lemma DistinctPermutation<T>(a: seq<T>, b: seq<T>)
    requires Distinct(a) && multiset(a) == multiset(b)
    ensures Distinct(b)
  {
    DistinctMultiplicity(a);
    forall i, j | 0 <= i < j < |b| ensures b[i] != b[j] {
      if b[i] == b[j] {
        TwoOccurrences(b, i, j);
        assert false;
      }
    }
  }

  /** A filter keeps a descending list descending. */
  lemma {:induction false} FilterSorted<T(!new)>(xs: seq<T>, key: T -> real, p: T -> bool)
    requires SortedDesc(xs, key)
    ensures SortedDesc(Filter(xs, p), key)
    decreases |xs|
  {
    if |xs| > 0 {
      var init, x := xs[..|xs| - 1], xs[|xs| - 1];
      assert forall i :: 0 <= i < |init| ==> init[i] == xs[i];
      FilterSorted(init, key, p);
      FilterMembers(init, p);
      var f := Filter(init, p);
      forall y | y in f
        ensures key(y) >= key(x)
      {
        var m :| 0 <= m < |init| && init[m] == y;
        assert xs[m] == y;
      }
      if p(x) {
        var r := f + [x];
        forall i, j | 0 <= i < j < |r|
          ensures key(r[i]) >= key(r[j])
        {
          assert r[i] == f[i] && f[i] in f;
          if j < |f| {
            assert r[j] == f[j];
          }
        }
      }
    }
  }

  /** An element of a descending list left out of its first `n` ranks no higher than any of them. */
  lemma TakeTop<T(!new)>(xs: seq<T>, key: T -> real, n: nat, e: T)
    requires SortedDesc(xs, key) && e in xs && e !in Take(xs, n)
    ensures |Take(xs, n)| == n
    ensures forall i :: 0 <= i < n ==> key(Take(xs, n)[i]) >= key(e)
  {
    var m :| 0 <= m < |xs| && xs[m] == e;
    var t := Take(xs, n);
    assert forall i :: 0 <= i < |t| ==> t[i] == xs[i];
    assert |t| <= m;
  }

  /** A filter keeps the elements of a list distinct. */
  lemma {:induction false} FilterDistinct<T(!new)>(xs: seq<T>, p: T -> bool)
    requires Distinct(xs)
    ensures Distinct(Filter(xs, p))
    decreases |xs|
  {
    if |xs| > 0 {
      var init, x := xs[..|xs| - 1], xs[|xs| - 1];
      FilterDistinct(init, p);
      FilterMembers(init, p);
      assert x !in init;
    }
  }
}
