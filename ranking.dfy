/**
 * Counting and grouping idioms shared by the advisor modules:
 *  - "count each item in a dict, then `sorted(counts, key=count, reverse=True)[:n]`",
 *    which returns the most frequent items with ties in first-occurrence order;
 *  - "append each score to a per-key list, then replace each list by its average".
 */
module Ranking {
  import opened Common

  function Flatten<T>(xss: seq<seq<T>>): seq<T>
  {
    if |xss| == 0 then [] else Flatten(xss[..|xss| - 1]) + xss[|xss| - 1]
  }

  // ---------------------------------------------------------------------------------------
  // Most frequent items
  // ---------------------------------------------------------------------------------------

  /** The counting dict: each distinct item with its number of occurrences, in order of first occurrence. */
  function Tally<T(==,!new)>(xs: seq<T>): (r: seq<(T, nat)>)
    ensures |r| == |Dedup(xs)|
    ensures forall i :: 0 <= i < |r| ==> r[i] == (Dedup(xs)[i], Count(xs, Dedup(xs)[i]))
  {
    var u := Dedup(xs);
    seq(|u|, i requires 0 <= i < |u| => (u[i], Count(xs, u[i])))
  }

  /** The first index of `x` among the tally's items, or `|t|` when it is absent. */
  function FindItem<T(==)>(t: seq<(T, nat)>, x: T): (j: nat)
    ensures j <= |t|
    ensures j < |t| ==> t[j].0 == x
    ensures forall i :: 0 <= i < j ==> t[i].0 != x
  {
    if |t| == 0 then 0 else if t[0].0 == x then 0 else 1 + FindItem(t[1..], x)
  }

  lemma TallyStep<T(!new)>(xs: seq<T>, x: T)
    ensures var t := Tally(xs);
            var j := FindItem(t, x);
            Tally(xs + [x]) == if j < |t| then t[j := (x, t[j].1 + 1)] else t + [(x, 1)]
  {
    var t := Tally(xs);
    var j := FindItem(t, x);
    var ys := xs + [x];
    assert ys[..|ys| - 1] == xs;
    var u := Dedup(xs);
    forall y ensures Count(ys, y) == Count(xs, y) + (if y == x then 1 else 0) {
      assert multiset(ys) == multiset(xs) + multiset{x};
    }
    if j < |t| {
      assert x in u;
      assert Dedup(ys) == u;
    } else {
      assert x !in u by {
        forall i | 0 <= i < |u| ensures u[i] != x {
          assert t[i].0 == u[i];
        }
      }
      assert Dedup(ys) == u + [x];
      assert Count(xs, x) == 0;
    }
  }

  /**
   * One step of the counting loop, `counts[x] = counts.get(x, 0) + 1`: bump the item's count,
   * or append it with count 1.
   */
  method CountOne<T(==,!new)>(t: seq<(T, nat)>, ghost xs: seq<T>, x: T) returns (t': seq<(T, nat)>)
    requires t == Tally(xs)
    ensures t' == Tally(xs + [x])
  {
    TallyStep(xs, x);
    ghost var next := Tally(xs + [x]);
    var j := FindItem(t, x);
    if j < |t| {
      t' := t[j := (x, t[j].1 + 1)];
    } else {
      t' := t + [(x, 1)];
    }
    assert t' == next;
  }

  method CountOccurrences<T(==,!new)>(xs: seq<T>) returns (t: seq<(T, nat)>)
    ensures t == Tally(xs)
  {
    t := [];
    var i := 0;
    while i < |xs|
      invariant 0 <= i <= |xs|
      invariant t == Tally(xs[..i])
    {
      assert xs[..i + 1] == xs[..i] + [xs[i]];
      t := CountOne(t, xs[..i], xs[i]);
      i := i + 1;
    }
    assert xs[..|xs|] == xs;
  }

  function ByCount<T>(): ((T, nat)) -> real
  {
    (e: (T, nat)) => e.1 as real
  }

  function Items<T>(ps: seq<(T, nat)>): (r: seq<T>)
    ensures |r| == |ps|
    ensures forall i :: 0 <= i < |ps| ==> r[i] == ps[i].0
  {
    seq(|ps|, i requires 0 <= i < |ps| => ps[i].0)
  }

  /** `sorted(counts, key=lambda k: counts[k], reverse=True)[:n]`. */
  function MostCommon<T(==,!new)>(xs: seq<T>, n: nat): seq<T>
  {
    Take(Items(SortDesc(Tally(xs), ByCount<T>())), n)
  }

  /** Every entry of the sorted tally pairs an item of the list with its count. */
  lemma SortedTallyEntries<T(!new)>(xs: seq<T>)
    ensures forall e :: e in SortDesc(Tally(xs), ByCount<T>()) ==>
      e.0 in xs && e.1 == Count(xs, e.0)
  {
    forall e | e in SortDesc(Tally(xs), ByCount<T>()) ensures e.0 in xs && e.1 == Count(xs, e.0) {
      SortedTallyEntry(xs, e);
    }
  }

  lemma SortedTallyEntry<T(!new)>(xs: seq<T>, e: (T, nat))
    requires e in SortDesc(Tally(xs), ByCount<T>())
    ensures e.0 in xs && e.1 == Count(xs, e.0)
  {
    var t := Tally(xs);
    assert e in multiset(SortDesc(t, ByCount<T>()));
    assert e in t;
    var i :| 0 <= i < |t| && t[i] == e;
    assert Dedup(xs)[i] in Dedup(xs);
  }

  /** The tally's entries are pairwise different, because their items are. */
  lemma TallyDistinct<T(!new)>(xs: seq<T>)
    ensures Distinct(Tally(xs))
  {
    var t := Tally(xs);
    var u := Dedup(xs);
    forall i, j | 0 <= i < j < |t| ensures t[i] != t[j] {
      assert u[i] != u[j];
    }
  }

  /** The sorted tally lists each item once. */
  lemma SortedTallyDistinct<T(!new)>(xs: seq<T>)
    ensures Distinct(Items(SortDesc(Tally(xs), ByCount<T>())))
  {
    var t := Tally(xs);
    var s := SortDesc(t, ByCount<T>());
    TallyDistinct(xs);
    DistinctPermutation(t, s);
    SortedTallyEntries(xs);
    forall i, j | 0 <= i < j < |s| ensures s[i].0 != s[j].0 {
      assert s[i] in s && s[j] in s;
      assert s[i] != s[j];
    }
  }

  /** The most common items are distinct, occur in the list, and are at most `n`. */
  lemma MostCommonShape<T(!new)>(xs: seq<T>, n: nat)
    ensures Distinct(MostCommon(xs, n))
    ensures |MostCommon(xs, n)| <= n
    ensures forall x :: x in MostCommon(xs, n) ==> x in xs
  {
    var s := SortDesc(Tally(xs), ByCount<T>());
    SortedTallyDistinct(xs);
    SortedTallyEntries(xs);
    var r := MostCommon(xs, n);
    forall x | x in r ensures x in xs {
      var i :| 0 <= i < |r| && r[i] == x;
      assert s[i] in s;
    }
  }

  /** The most common items come in non-increasing order of count. */
  lemma MostCommonOrdered<T(!new)>(xs: seq<T>, n: nat)
    ensures forall i, j :: 0 <= i < j < |MostCommon(xs, n)| ==>
      Count(xs, MostCommon(xs, n)[i]) >= Count(xs, MostCommon(xs, n)[j])
  {
    var s := SortDesc(Tally(xs), ByCount<T>());
    var r := MostCommon(xs, n);
    SortedTallyEntries(xs);
    forall i, j | 0 <= i < j < |r| ensures Count(xs, r[i]) >= Count(xs, r[j]) {
      assert s[i] in s && s[j] in s;
      assert ByCount<T>()(s[i]) >= ByCount<T>()(s[j]);
    }
  }

  /** Every item of the list has its entry, with its count, in the sorted tally. */
  lemma TallyHasEntry<T(!new)>(xs: seq<T>, x: T)
    requires x in xs
    ensures (x, Count(xs, x)) in SortDesc(Tally(xs), ByCount<T>())
  {
    var t := Tally(xs);
    var u := Dedup(xs);
    var k :| 0 <= k < |u| && u[k] == x;
    assert t[k] == (x, Count(xs, x));
    assert t[k] in multiset(SortDesc(t, ByCount<T>()));
  }

  /** Any item left out occurs no more often than every item kept. */
  lemma MostCommonDominates<T(!new)>(xs: seq<T>, n: nat, x: T)
    requires x in xs && x !in MostCommon(xs, n)
    ensures forall i :: 0 <= i < |MostCommon(xs, n)| ==> Count(xs, MostCommon(xs, n)[i]) >= Count(xs, x)
  {
    var s := SortDesc(Tally(xs), ByCount<T>());
    var r := MostCommon(xs, n);
    TallyHasEntry(xs, x);
    var p :| 0 <= p < |s| && s[p] == (x, Count(xs, x));
    assert forall q :: 0 <= q < |r| ==> r[q] == s[q].0 && s[q].0 != x;
    assert |r| <= p;
    PrefixOutcounts(s, p, |r|);
    forall i | 0 <= i < |r| ensures Count(xs, r[i]) >= Count(xs, x) {
      SortedTallyEntry(xs, s[i]);
    }
  }

  /** In a tally sorted by count, the entries before position `p` count at least as much. */
  lemma PrefixOutcounts<T(!new)>(s: seq<(T, nat)>, p: nat, m: nat)
    requires SortedDesc(s, ByCount<T>()) && m <= p < |s|
    ensures forall i :: 0 <= i < m ==> s[i].1 >= s[p].1
  {
    forall i | 0 <= i < m ensures s[i].1 >= s[p].1 {
      assert ByCount<T>()(s[i]) >= ByCount<T>()(s[p]);
    }
  }

  /** An item of the list is left out only when all `n` places are taken. */
  lemma MostCommonFull<T(!new)>(xs: seq<T>, n: nat, x: T)
    requires x in xs && x !in MostCommon(xs, n)
    ensures |MostCommon(xs, n)| == n
  {
    var t := Tally(xs);
    var s := SortDesc(t, ByCount<T>());
    var u := Dedup(xs);
    var k :| 0 <= k < |u| && u[k] == x;
    assert t[k] in multiset(s);
    var p :| 0 <= p < |s| && s[p] == t[k];
    assert Items(s)[p] == x;
  }

  /** Items with equal counts keep their first-occurrence order (Python's sort is stable). */
  lemma MostCommonTiesInFirstOccurrenceOrder<T(!new)>(xs: seq<T>, c: nat)
    ensures Filter(SortDesc(Tally(xs), ByCount<T>()), KeyIs(ByCount<T>(), c as real))
         == Filter(Tally(xs), KeyIs(ByCount<T>(), c as real))
  {
    SortDescStable(Tally(xs), ByCount<T>(), c as real);
  }

  // ---------------------------------------------------------------------------------------
  // Per-key averages
  // ---------------------------------------------------------------------------------------

  /** `groups.setdefault(k, []).append(score)` for each `(k, score)` in turn. */
  function Groups(es: seq<(string, real)>): Dict<seq<real>>
  {
    if |es| == 0 then []
    else
      var g := Groups(es[..|es| - 1]);
      var e := es[|es| - 1];
      Put(g, e.0, GetOr(g, e.0, []) + [e.1])
  }

  /** The scores recorded under key `k`, in order. */
  function ScoresFor(es: seq<(string, real)>, k: string): seq<real>
  {
    if |es| == 0 then []
    else ScoresFor(es[..|es| - 1], k) + (if es[|es| - 1].0 == k then [es[|es| - 1].1] else [])
  }

  function Firsts(es: seq<(string, real)>): (r: seq<string>)
    ensures |r| == |es|
    ensures forall i :: 0 <= i < |es| ==> r[i] == es[i].0
  {
    seq(|es|, i requires 0 <= i < |es| => es[i].0)
  }

  /** The group keys are the distinct keys of the entries, in first-occurrence order. */
  lemma {:induction false} GroupsKeys(es: seq<(string, real)>)
    ensures Keys(Groups(es)) == Dedup(Firsts(es))
    decreases |es|
  {
    if |es| > 0 {
      var init := es[..|es| - 1];
      GroupsKeys(init);
      var g := Groups(init);
      PutKeys(g, es[|es| - 1].0, GetOr(g, es[|es| - 1].0, []) + [es[|es| - 1].1]);
      assert Firsts(es)[..|es| - 1] == Firsts(init);
    }
  }

  /** Some entry has key `k`. */
  predicate KeyOccurs(es: seq<(string, real)>, k: string)
  {
    |es| > 0 && (KeyOccurs(es[..|es| - 1], k) || es[|es| - 1].0 == k)
  }

  lemma {:induction false} ScoresForAbsent(es: seq<(string, real)>, k: string)
    requires !KeyOccurs(es, k)
    ensures ScoresFor(es, k) == []
    decreases |es|
  {
    if |es| > 0 {
      ScoresForAbsent(es[..|es| - 1], k);
    }
  }

  /** Each key holds exactly the scores recorded under it. */
  lemma {:induction false} GroupsGet(es: seq<(string, real)>, k: string)
    ensures Get(Groups(es), k) == if KeyOccurs(es, k) then Some(ScoresFor(es, k)) else None
    decreases |es|
  {
    if |es| > 0 {
      var init := es[..|es| - 1];
      GroupsGet(init, k);
      if k == es[|es| - 1].0 {
        GroupsGetLast(es);
      } else {
        GroupsGetOther(es, k);
      }
    }
  }

  lemma GroupsGetLast(es: seq<(string, real)>)
    requires |es| > 0
    requires var k := es[|es| - 1].0;
      Get(Groups(es[..|es| - 1]), k)
        == if KeyOccurs(es[..|es| - 1], k) then Some(ScoresFor(es[..|es| - 1], k)) else None
    ensures var k := es[|es| - 1].0; Get(Groups(es), k) == Some(ScoresFor(es, k))
  {
    var init := es[..|es| - 1];
    var e := es[|es| - 1];
    var g := Groups(init);
    PutGet(g, e.0, GetOr(g, e.0, []) + [e.1], e.0);
    if !KeyOccurs(init, e.0) {
      ScoresForAbsent(init, e.0);
    }
  }

  lemma GroupsGetOther(es: seq<(string, real)>, k: string)
    requires |es| > 0 && k != es[|es| - 1].0
    requires Get(Groups(es[..|es| - 1]), k)
        == if KeyOccurs(es[..|es| - 1], k) then Some(ScoresFor(es[..|es| - 1], k)) else None
    ensures Get(Groups(es), k) == if KeyOccurs(es, k) then Some(ScoresFor(es, k)) else None
  {
    var init := es[..|es| - 1];
    var e := es[|es| - 1];
    var g := Groups(init);
    var v := GetOr(g, e.0, []) + [e.1];
    assert Groups(es) == Put(g, e.0, v);
    PutGet(g, e.0, v, k);
    assert Get(Groups(es), k) == Get(g, k);
    assert KeyOccurs(es, k) == KeyOccurs(init, k);
    assert ScoresFor(es, k) == ScoresFor(init, k);
  }

  /** Replaces each list by its average. */
  function MeansOf(g: Dict<seq<real>>): (r: Dict<real>)
    ensures Keys(r) == Keys(g)
    ensures forall i :: 0 <= i < |g| ==> r[i] == (g[i].0, Mean(g[i].1))
  {
    seq(|g|, i requires 0 <= i < |g| => (g[i].0, Mean(g[i].1)))
  }

  /** The two loops of a "group, then average" computation. */
  method GroupMeans(es: seq<(string, real)>) returns (r: Dict<real>)
    ensures r == MeansOf(Groups(es))
  {
    var g: Dict<seq<real>> := [];
    var i := 0;
    while i < |es|
      invariant 0 <= i <= |es|
      invariant g == Groups(es[..i])
    {
      assert es[..i + 1][..i] == es[..i];
      g := Put(g, es[i].0, GetOr(g, es[i].0, []) + [es[i].1]);
      i := i + 1;
    }
    assert es[..|es|] == es;
    r := AverageEach(g);
  }

  /** `for k in groups: groups[k] = sum(groups[k]) / len(groups[k])`. */
  method AverageEach(g: Dict<seq<real>>) returns (r: Dict<real>)
    ensures r == MeansOf(g)
  {
    r := [];
    var j := 0;
    while j < |g|
      invariant 0 <= j <= |g| && |r| == j
      invariant forall m :: 0 <= m < j ==> r[m] == (g[m].0, Mean(g[m].1))
    {
      r := r + [(g[j].0, Mean(g[j].1))];
      j := j + 1;
    }
  }

  /** Each group's average lies within the bounds of its scores. */
  lemma GroupMeanBounds(es: seq<(string, real)>, lo: real, hi: real)
    requires forall i :: 0 <= i < |es| ==> lo <= es[i].1 <= hi
    ensures forall i :: 0 <= i < |Groups(es)| ==> lo <= MeansOf(Groups(es))[i].1 <= hi
  {
    var g := Groups(es);
    forall i | 0 <= i < |g| ensures lo <= MeansOf(g)[i].1 <= hi {
      var k := g[i].0;
      assert Keys(g)[i] == k;
      GroupsKeys(es);
      GroupsGet(es, k);
      GroupScoresWithin(es, k, lo, hi);
      GetIndexed(g, i);
      MeanBounds(g[i].1, lo, hi);
    }
  }

  lemma {:induction false} GroupScoresWithin(es: seq<(string, real)>, k: string, lo: real, hi: real)
    requires forall i :: 0 <= i < |es| ==> lo <= es[i].1 <= hi
    ensures k in Firsts(es) ==> |ScoresFor(es, k)| > 0
    ensures forall j :: 0 <= j < |ScoresFor(es, k)| ==> lo <= ScoresFor(es, k)[j] <= hi
    decreases |es|
  {
    if |es| > 0 {
      var init := es[..|es| - 1];
      assert forall i :: 0 <= i < |init| ==> init[i] == es[i];
      GroupScoresWithin(init, k, lo, hi);
      assert Firsts(es) == Firsts(init) + [es[|es| - 1].0];
    }
  }

  /** In a dict with distinct keys, `Get` of the i-th key returns the i-th value. */
  lemma {:induction false} GetIndexed<V>(d: Dict<V>, i: nat)
    requires i < |d|
    requires DistinctKeys(d)
    ensures Get(d, d[i].0) == Some(d[i].1)
    decreases i
  {
    if i > 0 {
      assert Keys(d)[0] != Keys(d)[i];
      assert DistinctKeys(d[1..]) by {
        forall a, b | 0 <= a < b < |d[1..]| ensures Keys(d[1..])[a] != Keys(d[1..])[b] {
          assert Keys(d)[a + 1] != Keys(d)[b + 1];
        }
      }
      GetIndexed(d[1..], i - 1);
    }
  }
}
