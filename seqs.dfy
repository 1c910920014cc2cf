/**
 * The sequence operations the core builds on: JavaScript's `filter`, `find`/`findIndex`,
 * `flatMap`, `sort` with a numeric comparator, and first-occurrence order of
 * distinct values.
 */
module Seqs {
  import opened Options

  /** `a` can be obtained from `b` by deleting elements: the order of `b` is kept. */
  ghost predicate IsSubsequence<T>(a: seq<T>, b: seq<T>)
    decreases |b|
  {
    a == [] || (b != [] && ((a[0] == b[0] && IsSubsequence(a[1..], b[1..])) || IsSubsequence(a, b[1..])))
  }

  /** How many elements of `s` satisfy `p`. */
  function CountWhere<T>(s: seq<T>, p: T -> bool): nat {
    if s == [] then 0 else (if p(s[0]) then 1 else 0) + CountWhere(s[1..], p)
  }

  /** `s.filter(p)`: the elements satisfying `p`, in their original order. */
  function Filter<T>(s: seq<T>, p: T -> bool): (r: seq<T>)
    ensures IsSubsequence(r, s)
    ensures forall i :: 0 <= i < |r| ==> p(r[i])
    ensures |r| == CountWhere(s, p)
    ensures forall i :: 0 <= i < |s| && p(s[i]) ==> s[i] in r
  {
    if s == [] then []
    else
      var rest := Filter(s[1..], p);
      assert forall i :: 1 <= i < |s| ==> s[i] == s[1..][i - 1];
      if p(s[0]) then
        assert ([s[0]] + rest)[1..] == rest;
        [s[0]] + rest
      else rest
  }

  lemma {:induction false} SubsequenceMembers<T>(a: seq<T>, b: seq<T>)
    requires IsSubsequence(a, b)
    ensures forall x :: x in a ==> x in b
    decreases |b|
  {
    if a != [] {
      if a[0] == b[0] && IsSubsequence(a[1..], b[1..]) {
        SubsequenceMembers(a[1..], b[1..]);
        assert forall x :: x in a ==> x == a[0] || x in a[1..];
      } else {
        SubsequenceMembers(a, b[1..]);
      }
    }
  }

  /** Membership in a filter result: exactly the members of `s` that satisfy `p`. */
  lemma FilterMembers<T>(s: seq<T>, p: T -> bool)
    ensures forall x :: x in Filter(s, p) <==> x in s && p(x)
  {
    SubsequenceMembers(Filter(s, p), s);
  }

  /** A subsequence whose elements all satisfy `p` is no longer than the count of such elements. */
  lemma {:induction false} SubsequenceBound<T>(a: seq<T>, b: seq<T>, p: T -> bool)
    requires IsSubsequence(a, b)
    requires forall i :: 0 <= i < |a| ==> p(a[i])
    ensures |a| <= CountWhere(b, p)
    decreases |b|
  {
    if a != [] {
      if a[0] == b[0] && IsSubsequence(a[1..], b[1..]) {
        SubsequenceBound(a[1..], b[1..], p);
      } else {
        SubsequenceBound(a, b[1..], p);
      }
    }
  }

  /** `Filter` is the only subsequence of `s` that keeps as many elements as satisfy `p` and
      keeps only such elements: the filter result is fully determined by these three facts. */
  lemma {:induction false} FilterUnique<T>(s: seq<T>, p: T -> bool, r: seq<T>)
    requires IsSubsequence(r, s)
    requires forall i :: 0 <= i < |r| ==> p(r[i])
    requires |r| == CountWhere(s, p)
    ensures r == Filter(s, p)
    decreases |s|
  {
    if s == [] {
    } else if r == [] {
      assert CountWhere(s[1..], p) == 0 && !p(s[0]);
      assert Filter(s[1..], p) == [];
    } else if p(s[0]) {
      if IsSubsequence(r, s[1..]) {
        SubsequenceBound(r, s[1..], p);
        assert false;
      }
      assert r[0] == s[0] && IsSubsequence(r[1..], s[1..]);
      FilterUnique(s[1..], p, r[1..]);
      assert r == [r[0]] + r[1..];
    } else {
      assert r[0] != s[0];
      FilterUnique(s[1..], p, r);
    }
  }

  /** Filtering keeps everything when every element qualifies. */
  lemma {:induction false} FilterAll<T>(s: seq<T>, p: T -> bool)
    requires forall i :: 0 <= i < |s| ==> p(s[i])
    ensures Filter(s, p) == s
  {
    if s != [] {
      FilterAll(s[1..], p);
      assert s == [s[0]] + s[1..];
    }
  }

  /** Two filters in a row are one filter by the conjunction `pq`. */
  lemma {:induction false} FilterThenFilter<T>(s: seq<T>, p: T -> bool, q: T -> bool, pq: T -> bool)
    requires forall x :: pq(x) == (p(x) && q(x))
    ensures Filter(Filter(s, p), q) == Filter(s, pq)
  {
    if s != [] {
      FilterThenFilter(s[1..], p, q, pq);
      if p(s[0]) {
        assert Filter(s, p) == [s[0]] + Filter(s[1..], p);
        assert Filter(s, p)[1..] == Filter(s[1..], p);
      }
    }
  }

  /** Filtering twice by the same predicate is filtering once. */
  lemma {:induction false} FilterIdempotent<T>(s: seq<T>, p: T -> bool)
    ensures Filter(Filter(s, p), p) == Filter(s, p)
  {
    FilterAll(Filter(s, p), p);
  }

  /** The last kept element is the last element of `s` that satisfies `p`. */
  lemma {:induction false} FilterLast<T>(s: seq<T>, p: T -> bool)
    requires Filter(s, p) != []
    ensures exists k :: 0 <= k < |s| && LastKeptAt(s, p, k)
  {
    var rest := Filter(s[1..], p);
    if rest != [] {
      FilterLast(s[1..], p);
      var k :| 0 <= k < |s[1..]| && LastKeptAt(s[1..], p, k);
      assert LastKeptAt(s, p, k + 1);
    } else {
      assert forall m :: 1 <= m < |s| ==> s[m] == s[1..][m - 1];
      assert LastKeptAt(s, p, 0);
    }
  }

  /** `s[k]` satisfies `p`, is the last element of `Filter(s, p)`, and nothing after it satisfies `p`. */
  ghost predicate LastKeptAt<T>(s: seq<T>, p: T -> bool, k: int)
    requires 0 <= k < |s|
  {
    var r := Filter(s, p);
    && r != [] && p(s[k]) && r[|r| - 1] == s[k]
    && forall m :: k < m < |s| ==> !p(s[m])
  }

  /** `s.findIndex(p)`: the position of the first element satisfying `p`, if any. */
  function FirstWhere<T>(s: seq<T>, p: T -> bool): (r: Option<nat>)
    ensures r.Some? ==> r.value < |s| && p(s[r.value])
    ensures r.Some? ==> forall j :: 0 <= j < r.value ==> !p(s[j])
    ensures r.None? <==> forall j :: 0 <= j < |s| ==> !p(s[j])
  {
    if s == [] then None
    else if p(s[0]) then Some(0)
    else
      match FirstWhere(s[1..], p)
      case None =>
        assert forall j :: 1 <= j < |s| ==> s[j] == s[1..][j - 1];
        None
      case Some(k) =>
        assert forall j :: 1 <= j < k + 1 ==> s[j] == s[1..][j - 1];
        Some(k + 1)
  }

  // ---------------------------------------------------------------- sort

  /** `s` is ordered by non-increasing `key`. */
  ghost predicate SortedDesc<T>(s: seq<T>, key: T -> int) {
    forall i, j :: 0 <= i < j < |s| ==> key(s[i]) >= key(s[j])
  }

  /** A head no smaller than the first element keeps a sorted sequence sorted. */
  lemma SortedCons<T>(h: T, t: seq<T>, key: T -> int)
    requires SortedDesc(t, key)
    requires t == [] || key(h) >= key(t[0])
    ensures SortedDesc([h] + t, key)
  {
    var r := [h] + t;
    forall i, j | 0 <= i < j < |r| ensures key(r[i]) >= key(r[j]) {
      if i == 0 {
        assert r[j] == t[j - 1];
        assert key(t[0]) >= key(t[j - 1]) || j == 1;
      } else {
        assert r[i] == t[i - 1] && r[j] == t[j - 1];
      }
    }
  }

  /** Inserts `x` after every element whose key is at least `x`'s. */
  function Insert<T>(x: T, s: seq<T>, key: T -> int): (r: seq<T>)
    requires SortedDesc(s, key)
    ensures SortedDesc(r, key)
    ensures multiset(r) == multiset(s) + multiset{x}
    ensures |r| == |s| + 1
    ensures r[0] == x || (s != [] && r[0] == s[0])
  {
    if s == [] then [x]
    else if key(s[0]) >= key(x) then
      var rest := Insert(x, s[1..], key);
      assert s == [s[0]] + s[1..];
      SortedCons(s[0], rest, key);
      [s[0]] + rest
    else
      SortedCons(x, s, key);
      [x] + s
  }

  /** `s.sort((a, b) => key(b) - key(a))`: a sort by non-increasing key; among equal keys
      the definition keeps earlier elements first. */
  function SortDesc<T>(s: seq<T>, key: T -> int): (r: seq<T>)
    ensures SortedDesc(r, key)
    ensures multiset(r) == multiset(s)
    ensures |r| == |s|
  {
    if s == [] then []
    else
      var init := s[..|s| - 1];
      assert s == init + [s[|s| - 1]];
      Insert(s[|s| - 1], SortDesc(init, key), key)
  }

  // ---------------------------------------------------------------- distinct values

  /** No value occurs twice. */
  ghost predicate Distinct<T>(s: seq<T>) {
    forall i, j :: 0 <= i < j < |s| ==> s[i] != s[j]
  }

  /** The distinct values of `s` in the order of their first occurrence. */
  function Dedup<T(==)>(s: seq<T>): (r: seq<T>)
    ensures Distinct(r)
    ensures forall i :: 0 <= i < |r| ==> r[i] in s
  {
    if s == [] then []
    else
      var init := s[..|s| - 1];
      var x := s[|s| - 1];
      assert s == init + [x];
      Dedup(init) + (if x in init then [] else [x])
  }

  /** Every value of `s` is kept by `Dedup`. */
  lemma {:induction false} DedupKeepsAll<T>(s: seq<T>)
    ensures forall i :: 0 <= i < |s| ==> s[i] in Dedup(s)
  {
    if s != [] {
      var init := s[..|s| - 1];
      DedupKeepsAll(init);
      assert s == init + [s[|s| - 1]];
    }
  }

  /** A sequence of distinct values has as many elements as its set. */
  lemma {:induction false} DistinctCardinality<T>(s: seq<T>)
    requires Distinct(s)
    ensures |set x | x in s| == |s|
  {
    if s != [] {
      DistinctCardinality(s[1..]);
      assert (set x | x in s) == (set x | x in s[1..]) + {s[0]};
      assert s[0] !in s[1..];
    }
  }

  /** A rearrangement of a sequence of distinct values is distinct. */
  lemma DistinctPermutation<T>(a: seq<T>, b: seq<T>)
    requires Distinct(a)
    requires multiset(a) == multiset(b)
    ensures Distinct(b)
  {
    forall i, j | 0 <= i < j < |b| ensures b[i] != b[j] {
      if b[i] == b[j] {
        MultisetAtLeastTwo(b, i, j);
        DistinctAtMostOne(a, b[i]);
        assert false;
      }
    }
  }

  lemma {:induction false} MultisetAtLeastTwo<T>(s: seq<T>, i: int, j: int)
    requires 0 <= i < j < |s| && s[i] == s[j]
    ensures multiset(s)[s[i]] >= 2
  {
    assert s == s[..i] + [s[i]] + s[i + 1..j] + [s[j]] + s[j + 1..];
  }

  lemma {:induction false} DistinctAtMostOne<T>(s: seq<T>, x: T)
    requires Distinct(s)
    ensures multiset(s)[x] <= 1
  {
    if s != [] {
      DistinctAtMostOne(s[1..], x);
      assert s == [s[0]] + s[1..];
      assert s[0] !in s[1..];
    }
  }

  // ---------------------------------------------------------------- flatMap

  /** `s.flatMap(f)`: the results of `f` on every element, concatenated in order. */
  function FlatMap<T, U>(s: seq<T>, f: T -> seq<U>): seq<U> {
    if s == [] then [] else FlatMap(s[..|s| - 1], f) + f(s[|s| - 1])
  }

  /** A value is in the flattening exactly when it is in the result for some element. */
  lemma {:induction false} FlatMapMembers<T, U>(s: seq<T>, f: T -> seq<U>, x: U)
    ensures x in FlatMap(s, f) <==> exists i :: 0 <= i < |s| && x in f(s[i])
  {
    if s != [] {
      var init := s[..|s| - 1];
      FlatMapMembers(init, f, x);
      assert forall i :: 0 <= i < |init| ==> init[i] == s[i];
      if x in f(s[|s| - 1]) {
        assert 0 <= |s| - 1 < |s| && x in f(s[|s| - 1]);
      }
    }
  }

  /** Appending an element appends its results. */
  lemma FlatMapSnoc<T, U>(s: seq<T>, x: T, f: T -> seq<U>)
    ensures FlatMap(s + [x], f) == FlatMap(s, f) + f(x)
  {
    assert (s + [x])[..|s|] == s;
  }

  /** Keeping the elements that satisfy `p` and those that satisfy its complement `q` splits
      the multiset of `s` in two. */
  lemma {:induction false} FilterPartition<T>(s: seq<T>, p: T -> bool, q: T -> bool)
    requires forall x :: q(x) == !p(x)
    ensures multiset(Filter(s, p)) + multiset(Filter(s, q)) == multiset(s)
  {
    if s != [] {
      FilterPartition(s[1..], p, q);
      assert s == [s[0]] + s[1..];
    }
  }

  // ---------------------------------------------------------------- tallies

  /** `counts` holds, for every value of `s`, how often it occurs, and `keys` lists those values
      in the order of their first occurrence. */
  ghost predicate IsTally<T(!new)>(counts: map<T, nat>, keys: seq<T>, s: seq<T>) {
    && keys == Dedup(s)
    && (forall t :: t in counts <==> t in s)
    && (forall t :: t in counts ==> counts[t] == multiset(s)[t])
  }

  lemma EmptyTally<T(!new)>(s: seq<T>)
    requires s == []
    ensures IsTally(map[], [], s)
  {
  }

  /** Counting one more occurrence of `x`, and listing it if it is new, keeps the tally. */
  lemma TallyStep<T(!new)>(counts: map<T, nat>, keys: seq<T>, s: seq<T>, x: T)
    requires IsTally(counts, keys, s)
    ensures IsTally(counts[x := (if x in counts then counts[x] else 0) + 1],
                    if x in counts then keys else keys + [x], s + [x])
  {
    var s' := s + [x];
    var counts' := counts[x := (if x in counts then counts[x] else 0) + 1];
    DedupSnoc(s, x);
    CountSnoc(counts, s, x);
  }

  lemma CountSnoc<T(!new)>(counts: map<T, nat>, s: seq<T>, x: T)
    requires forall t :: t in counts <==> t in s
    requires forall t :: t in counts ==> counts[t] == multiset(s)[t]
    ensures var counts' := counts[x := (if x in counts then counts[x] else 0) + 1];
      && (forall t :: t in counts' <==> t in s + [x])
      && (forall t :: t in counts' ==> counts'[t] == multiset(s + [x])[t])
  {
    assert multiset(s + [x]) == multiset(s) + multiset{x};
  }

  /** Appending a value lists it at the end when it is new, and otherwise changes nothing. */
  lemma DedupSnoc<T>(s: seq<T>, x: T)
    ensures Dedup(s + [x]) == Dedup(s) + (if x in s then [] else [x])
  {
    assert (s + [x])[..|s|] == s;
  }

  /** Counts every value of `f(x)` for every `x` of `xs`, in order: the `reduce` with a nested
      `forEach` that builds a table of occurrence counts. */
  method Tally<T(!new), U>(xs: seq<U>, f: U -> seq<T>) returns (counts: map<T, nat>, keys: seq<T>)
    ensures IsTally(counts, keys, FlatMap(xs, f))
  {
    counts, keys := map[], [];
    var i := 0;
    assert xs[..0] == [];
    EmptyTally(FlatMap(xs[..0], f));
    while i < |xs|
      invariant 0 <= i <= |xs|
      invariant IsTally(counts, keys, FlatMap(xs[..i], f))
    {
      counts, keys := TallyInto(counts, keys, FlatMap(xs[..i], f), f(xs[i]));
      assert xs[..i + 1] == xs[..i] + [xs[i]];
      FlatMapSnoc(xs[..i], xs[i], f);
      i := i + 1;
    }
    assert xs[..|xs|] == xs;
  }

  /** Adds one occurrence of every value of `items` to a tally of `seen`. */
  method TallyInto<T(!new)>(counts0: map<T, nat>, keys0: seq<T>, ghost seen: seq<T>, items: seq<T>)
    returns (counts: map<T, nat>, keys: seq<T>)
    requires IsTally(counts0, keys0, seen)
    ensures IsTally(counts, keys, seen + items)
  {
    counts, keys := counts0, keys0;
    var j := 0;
    ghost var done := seen;
    while j < |items|
      invariant 0 <= j <= |items|
      invariant done == seen + items[..j]
      invariant IsTally(counts, keys, done)
    {
      var x := items[j];
      TallyStep(counts, keys, done, x);
      keys := if x in counts then keys else keys + [x];
      counts := counts[x := (if x in counts then counts[x] else 0) + 1];
      done := done + [x];
      assert items[..j + 1] == items[..j] + [x];
      j := j + 1;
    }
    assert items[..|items|] == items;
  }
}
