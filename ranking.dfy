/** The two orderings the chatbot takes from Python's library: `list.sort` with
    `reverse=True` on a key, which is stable, and `Counter(xs).most_common(n)`,
    which lists the distinct elements by descending count with ties in the order
    the elements were first seen; and the order-keeping filter of its keyword
    scans. */
module Ranking {

  /** The elements of `s` that `keep` accepts, in order. */
  function Filtered<T>(keep: T -> bool, s: seq<T>): (r: seq<T>)
    ensures |r| <= |s|
  {
    if s == [] then []
    else Filtered(keep, s[..|s| - 1]) + (if keep(s[|s| - 1]) then [s[|s| - 1]] else [])
  }

  /** `r` is the subsequence of `s` at the strictly increasing indices `idx`. */
  predicate PicksOf<T(==)>(r: seq<T>, s: seq<T>, idx: seq<nat>) {
    && |idx| == |r|
    && (forall k :: 0 <= k < |idx| ==> idx[k] < |s| && s[idx[k]] == r[k])
    && (forall i, j :: 0 <= i < j < |idx| ==> idx[i] < idx[j])
  }

  lemma PicksSkip<T>(r: seq<T>, s: seq<T>, idx: seq<nat>, x: T)
    requires PicksOf(r, s, idx)
    ensures PicksOf(r, s + [x], idx)
  {
    forall k | 0 <= k < |idx| ensures (s + [x])[idx[k]] == r[k] {
      assert (s + [x])[idx[k]] == s[idx[k]];
    }
  }

  lemma PicksTake<T>(r: seq<T>, s: seq<T>, idx: seq<nat>, x: T)
    requires PicksOf(r, s, idx)
    ensures PicksOf(r + [x], s + [x], idx + [|s|])
  {
    var r', s', idx' := r + [x], s + [x], idx + [|s|];
    forall k | 0 <= k < |idx'| ensures idx'[k] < |s'| && s'[idx'[k]] == r'[k] {
      if k < |idx| {
        assert idx'[k] == idx[k] && s'[idx[k]] == s[idx[k]] && r'[k] == r[k];
      }
    }
    forall i, j | 0 <= i < j < |idx'| ensures idx'[i] < idx'[j] {
      if j < |idx| {
        assert idx'[i] == idx[i] && idx'[j] == idx[j];
      }
    }
  }

  /** `Filtered` keeps the accepted elements in order: the result is the
      subsequence of `s` at some strictly increasing indices `idx`. */
  lemma {:induction false} FilteredIndices<T>(keep: T -> bool, s: seq<T>) returns (idx: seq<nat>)
    ensures PicksOf(Filtered(keep, s), s, idx)
  {
    if s == [] {
      idx := [];
    } else {
      var init, x := s[..|s| - 1], s[|s| - 1];
      var pre := FilteredIndices(keep, init);
      assert s == init + [x];
      if keep(x) {
        PicksTake(Filtered(keep, init), init, pre, x);
        idx := pre + [|init|];
      } else {
        PicksSkip(Filtered(keep, init), init, pre, x);
        idx := pre;
      }
    }
  }

  /** ... and it keeps exactly the accepted elements. */
  lemma {:induction false} FilteredMembers<T>(keep: T -> bool, s: seq<T>)
    ensures forall x :: x in Filtered(keep, s) <==> x in s && keep(x)
  {
    if s != [] {
      var init := s[..|s| - 1];
      FilteredMembers(keep, init);
      assert s == init + [s[|s| - 1]];
    }
  }

  predicate SortedDesc<T>(s: seq<T>, key: T -> real) {
    forall i, j :: 0 <= i < j < |s| ==> key(s[i]) >= key(s[j])
  }

  /** The elements of `s` whose key is `k`, in their order in `s`. */
  function WithKey<T>(s: seq<T>, key: T -> real, k: real): seq<T> {
    if s == [] then []
    else (if key(s[0]) == k then [s[0]] else []) + WithKey(s[1..], key, k)
  }

  /** Puts `x` in front of the first element whose key is not larger. */
  function Insert<T>(x: T, s: seq<T>, key: T -> real): seq<T> {
    if s == [] || key(x) >= key(s[0]) then [x] + s
    else [s[0]] + Insert(x, s[1..], key)
  }

  /** `sorted(s, key=key, reverse=True)`. */
  function SortDesc<T>(s: seq<T>, key: T -> real): seq<T> {
    if s == [] then [] else Insert(s[0], SortDesc(s[1..], key), key)
  }

  lemma {:induction false} InsertHead<T>(x: T, s: seq<T>, key: T -> real)
    ensures |Insert(x, s, key)| == |s| + 1
    ensures Insert(x, s, key)[0] == x || (s != [] && Insert(x, s, key)[0] == s[0])
  {
    if s != [] && key(x) < key(s[0]) {
      InsertHead(x, s[1..], key);
    }
  }

  lemma {:induction false} InsertSorted<T>(x: T, s: seq<T>, key: T -> real)
    requires SortedDesc(s, key)
    ensures SortedDesc(Insert(x, s, key), key)
  {
    if s != [] && key(x) < key(s[0]) {
      var t := Insert(x, s[1..], key);
      assert SortedDesc(s[1..], key) by {
        forall i, j | 0 <= i < j < |s[1..]| ensures key(s[1..][i]) >= key(s[1..][j]) {
          assert s[1..][i] == s[i + 1] && s[1..][j] == s[j + 1];
        }
      }
      InsertSorted(x, s[1..], key);
      InsertHead(x, s[1..], key);
      assert key(t[0]) <= key(s[0]);
      var r := [s[0]] + t;
      forall i, j | 0 <= i < j < |r| ensures key(r[i]) >= key(r[j]) {
        if i == 0 {
          assert r[j] == t[j - 1];
          if j > 1 { assert key(t[0]) >= key(t[j - 1]); }
        } else {
          assert r[i] == t[i - 1] && r[j] == t[j - 1];
        }
      }
    }
  }

  lemma {:induction false} InsertMultiset<T>(x: T, s: seq<T>, key: T -> real)
    ensures multiset(Insert(x, s, key)) == multiset(s) + multiset{x}
  {
    if s != [] && key(x) < key(s[0]) {
      InsertMultiset(x, s[1..], key);
      assert s == [s[0]] + s[1..];
    }
  }

  lemma {:induction false} InsertWithKey<T>(x: T, s: seq<T>, key: T -> real, k: real)
    ensures WithKey(Insert(x, s, key), key, k) == (if key(x) == k then [x] else []) + WithKey(s, key, k)
  {
    if s == [] || key(x) >= key(s[0]) {
      assert ([x] + s)[1..] == s;
    } else {
      var t := Insert(x, s[1..], key);
      var w := WithKey(s[1..], key, k);
      InsertWithKey(x, s[1..], key, k);
      assert ([s[0]] + t)[1..] == t;
      assert WithKey(Insert(x, s, key), key, k) == (if key(s[0]) == k then [s[0]] else []) + WithKey(t, key, k);
      assert WithKey(s, key, k) == (if key(s[0]) == k then [s[0]] else []) + w;
      // x goes after s[0], whose key is larger, so at most one of them has key k
      if key(x) == k {
        assert WithKey(Insert(x, s, key), key, k) == [x] + w;
      } else {
        assert WithKey(t, key, k) == w;
      }
    }
  }

  /** The sort orders by non-increasing key, is a permutation of its input, and
      is stable: the elements sharing a key keep their relative order. */
  lemma {:induction false} SortDescFacts<T>(s: seq<T>, key: T -> real)
    ensures SortedDesc(SortDesc(s, key), key)
    ensures multiset(SortDesc(s, key)) == multiset(s)
    ensures forall k :: WithKey(SortDesc(s, key), key, k) == WithKey(s, key, k)
  {
    if s != [] {
      SortDescFacts(s[1..], key);
      InsertSorted(s[0], SortDesc(s[1..], key), key);
      InsertMultiset(s[0], SortDesc(s[1..], key), key);
      assert s == [s[0]] + s[1..];
      forall k ensures WithKey(SortDesc(s, key), key, k) == WithKey(s, key, k) {
        InsertWithKey(s[0], SortDesc(s[1..], key), key, k);
        assert WithKey(s, key, k) == (if key(s[0]) == k then [s[0]] else []) + WithKey(s[1..], key, k);
      }
    }
  }

  /** Keeping a prefix keeps a prefix of every key's elements. */
  lemma {:induction false} WithKeyPrefix<T>(s: seq<T>, n: nat, key: T -> real, k: real)
    requires n <= |s|
    ensures WithKey(s[..n], key, k) <= WithKey(s, key, k)
  {
    if n > 0 {
      assert s[..n][1..] == s[1..][..n - 1];
      WithKeyPrefix(s[1..], n - 1, key, k);
    }
  }

  // ------------------------------------------------------------- counting

  function Count<T(==)>(xs: seq<T>, x: T): nat {
    if xs == [] then 0 else Count(xs[..|xs| - 1], x) + (if xs[|xs| - 1] == x then 1 else 0)
  }

  lemma {:induction false} CountPositive<T>(xs: seq<T>, x: T)
    ensures (Count(xs, x) > 0) == (x in xs)
  {
    if xs != [] {
      CountPositive(xs[..|xs| - 1], x);
      assert xs == xs[..|xs| - 1] + [xs[|xs| - 1]];
    }
  }

  predicate NoDuplicates<T(==)>(s: seq<T>) {
    forall i, j :: 0 <= i < j < |s| ==> s[i] != s[j]
  }

  /** The index of the first occurrence of `x` in `xs`. */
  function FirstIndex<T(==)>(xs: seq<T>, x: T): (i: nat)
    requires x in xs
    ensures i < |xs| && xs[i] == x && x !in xs[..i]
  {
    if xs[0] == x then 0 else
      assert x in xs[1..];
      var j := FirstIndex(xs[1..], x);
      assert xs[..j + 1] == [xs[0]] + xs[1..][..j];
      j + 1
  }

  /** The distinct elements of `xs` in the order they are first seen, the key
      order of `Counter(xs)`. */
  function Distinct<T(==)>(xs: seq<T>): (d: seq<T>)
    ensures NoDuplicates(d)
    ensures forall i :: 0 <= i < |d| ==> d[i] in xs
    ensures forall i :: 0 <= i < |xs| ==> xs[i] in d
  {
    if xs == [] then []
    else
      var d := Distinct(xs[..|xs| - 1]);
      assert xs == xs[..|xs| - 1] + [xs[|xs| - 1]];
      if xs[|xs| - 1] in d then d else d + [xs[|xs| - 1]]
  }

  /** Distinct lists the elements by the position of their first occurrence. */
  lemma {:induction false} DistinctFirstSeen<T>(xs: seq<T>)
    ensures forall i, j :: 0 <= i < j < |Distinct(xs)| ==>
      FirstIndex(xs, Distinct(xs)[i]) < FirstIndex(xs, Distinct(xs)[j])
  {
    if xs != [] {
      var init := xs[..|xs| - 1];
      var last := xs[|xs| - 1];
      DistinctFirstSeen(init);
      assert xs == init + [last];
      var d := Distinct(init);
      forall x | x in init ensures FirstIndex(xs, x) == FirstIndex(init, x) {
        var a, b := FirstIndex(xs, x), FirstIndex(init, x);
        assert xs[b] == x && xs[..b] == init[..b];
      }
      if last !in d {
        assert FirstIndex(xs, last) == |xs| - 1 by {
          var a := FirstIndex(xs, last);
        }
      }
    }
  }

  // ---------------------------------------------------------- most_common

  /** An element's count in `xs`, as the sort key `most_common` uses. */
  function CountKey<T(==)>(xs: seq<T>): T -> real {
    x => Count(xs, x) as real
  }

  /** `[e for e, c in Counter(xs).most_common(n)]`. */
  function MostCommon<T(==)>(xs: seq<T>, n: nat): seq<T> {
    var sorted := SortDesc(Distinct(xs), CountKey(xs));
    sorted[..if n < |sorted| then n else |sorted|]
  }

  /** The counter's entries sorted by count hold each element of `xs` once. */
  lemma RankedDistinct<T>(xs: seq<T>)
    ensures var sorted := SortDesc(Distinct(xs), CountKey(xs));
      && |sorted| == |Distinct(xs)|
      && NoDuplicates(sorted)
      && (forall i :: 0 <= i < |sorted| ==> sorted[i] in xs)
      && (forall i :: 0 <= i < |xs| ==> xs[i] in sorted)
      && SortedDesc(sorted, CountKey(xs))
  {
    var d := Distinct(xs);
    var sorted := SortDesc(d, CountKey(xs));
    SortDescFacts(d, CountKey(xs));
    assert |sorted| == |d| by { assert |multiset(sorted)| == |multiset(d)|; }
    forall i | 0 <= i < |sorted| ensures sorted[i] in xs {
      assert sorted[i] in multiset(d);
    }
    forall i | 0 <= i < |xs| ensures xs[i] in sorted {
      assert xs[i] in multiset(sorted);
    }
    PermutationNoDuplicates(d, sorted);
  }

  /** A permutation of a sequence without duplicates has none either. */
  lemma PermutationNoDuplicates<T>(d: seq<T>, p: seq<T>)
    requires NoDuplicates(d) && multiset(p) == multiset(d)
    ensures NoDuplicates(p)
  {
    forall i, j | 0 <= i < j < |p| ensures p[i] != p[j] {
      assert p == p[..j] + [p[j]] + p[j + 1..];
      assert p[i] in p[..j];
      assert multiset(p)[p[j]] >= multiset(p[..j])[p[j]] + 1;
      assert p[j] in d by { assert p[j] in multiset(d); }
      DistinctCountOne(d, p[j]);
    }
  }

  /** At most `n` distinct elements, all from `xs`, and no fewer than `n`
      unless every element of `xs` is listed. */
  lemma MostCommonShape<T>(xs: seq<T>, n: nat)
    ensures var r := MostCommon(xs, n);
      && |r| <= n && NoDuplicates(r)
      && (forall i :: 0 <= i < |r| ==> r[i] in xs)
      && (|r| == n || forall i :: 0 <= i < |xs| ==> xs[i] in r)
  {
    RankedDistinct(xs);
  }

  /** Listed by non-increasing count, and no element left out occurs more often
      than any element kept. */
  lemma MostCommonOrder<T>(xs: seq<T>, n: nat)
    ensures var r := MostCommon(xs, n);
      && (forall i, j :: 0 <= i < j < |r| ==> Count(xs, r[i]) >= Count(xs, r[j]))
      && (forall x, i :: x in xs && x !in r && 0 <= i < |r| ==> Count(xs, x) <= Count(xs, r[i]))
  {
    var sorted := SortDesc(Distinct(xs), CountKey(xs));
    RankedDistinct(xs);
    var r := MostCommon(xs, n);
    assert r == sorted[..|r|];
    forall i, j | 0 <= i < j < |r| ensures Count(xs, r[i]) >= Count(xs, r[j]) {
      assert CountKey(xs)(sorted[i]) >= CountKey(xs)(sorted[j]);
    }
    forall x, i | x in xs && x !in r && 0 <= i < |r| ensures Count(xs, x) <= Count(xs, r[i]) {
      var p :| 0 <= p < |xs| && xs[p] == x;
      assert x in sorted;
      var j :| 0 <= j < |sorted| && sorted[j] == x;
      assert CountKey(xs)(sorted[i]) >= CountKey(xs)(sorted[j]);
    }
  }

  /** A prefix of a list sorted by non-increasing key holds the best keys:
      nothing left out of it has a higher key than an element in it. */
  lemma SortedPrefixIsTop<T>(s: seq<T>, n: nat, key: T -> real)
    requires n <= |s| && SortedDesc(s, key)
    ensures forall x, k :: x in s && x !in s[..n] && 0 <= k < n ==> key(x) <= key(s[k])
  {
    forall x, k | x in s && x !in s[..n] && 0 <= k < n ensures key(x) <= key(s[k]) {
      var j :| 0 <= j < |s| && s[j] == x;
      assert forall i :: 0 <= i < n ==> s[..n][i] == s[i];
      assert n <= j;
    }
  }

  /** The first `n` elements by non-increasing key: sorted, each key's
      elements a prefix of those in `xs` in their order there, and nothing
      left out with a higher key than one taken. */
  lemma TopByKey<T>(xs: seq<T>, n: nat, key: T -> real)
    requires n <= |xs|
    ensures |SortDesc(xs, key)| == |xs| && multiset(SortDesc(xs, key)) == multiset(xs)
    ensures var r := SortDesc(xs, key)[..n];
      && SortedDesc(r, key)
      && (forall k :: WithKey(r, key, k) <= WithKey(xs, key, k))
      && (forall x, i :: x in xs && x !in r && 0 <= i < |r| ==> key(x) <= key(r[i]))
  {
    var sorted := SortDesc(xs, key);
    SortDescFacts(xs, key);
    assert |sorted| == |multiset(sorted)|;
    TopOfSorted(sorted, n, key);
    forall k ensures WithKey(sorted[..n], key, k) <= WithKey(xs, key, k) {
      WithKeyPrefix(sorted, n, key, k);
    }
    forall x | x in xs ensures x in sorted {
      assert x in multiset(sorted);
    }
  }

  /** A prefix of a sorted list is sorted and holds the best keys. */
  lemma TopOfSorted<T>(s: seq<T>, n: nat, key: T -> real)
    requires n <= |s| && SortedDesc(s, key)
    ensures SortedDesc(s[..n], key)
    ensures forall x, i :: x in s && x !in s[..n] && 0 <= i < n ==> key(x) <= key(s[..n][i])
  {
    SortedPrefixIsTop(s, n, key);
    assert forall i :: 0 <= i < n ==> s[..n][i] == s[i];
  }

  /** Elements of equal count keep the counter's first-seen order. */
  lemma MostCommonTies<T>(xs: seq<T>, n: nat, k: real)
    ensures WithKey(MostCommon(xs, n), CountKey(xs), k) <= WithKey(Distinct(xs), CountKey(xs), k)
  {
    var sorted := SortDesc(Distinct(xs), CountKey(xs));
    SortDescFacts(Distinct(xs), CountKey(xs));
    WithKeyPrefix(sorted, if n < |sorted| then n else |sorted|, CountKey(xs), k);
  }

  /** Within each key, `rank` increases along `s`. */
  predicate RankedWithinKeys<T>(s: seq<T>, key: T -> real, rank: T -> int) {
    forall i, j :: 0 <= i < j < |s| && key(s[i]) == key(s[j]) ==> rank(s[i]) < rank(s[j])
  }

  /** Inserting an element ranked below every element of its key keeps the
      ranks increasing within each key. */
  lemma {:induction false} InsertRanked<T>(x: T, s: seq<T>, key: T -> real, rank: T -> int)
    requires RankedWithinKeys(s, key, rank)
    requires forall k :: 0 <= k < |s| && key(s[k]) == key(x) ==> rank(x) < rank(s[k])
    ensures RankedWithinKeys(Insert(x, s, key), key, rank)
  {
    if s == [] || key(x) >= key(s[0]) {
      ConsRanked(x, s, key, rank);
    } else {
      var tail := s[1..];
      RankedTail(s, key, rank);
      forall k | 0 <= k < |tail| && key(tail[k]) == key(x) ensures rank(x) < rank(tail[k]) {
        assert tail[k] == s[k + 1];
      }
      InsertRanked(x, tail, key, rank);
      var t := Insert(x, tail, key);
      InsertMultiset(x, tail, key);
      forall k | 0 <= k < |t| && key(t[k]) == key(s[0]) ensures rank(s[0]) < rank(t[k]) {
        assert t[k] in multiset(tail) + multiset{x};
        if t[k] != x {
          var m :| 0 <= m < |tail| && tail[m] == t[k];
          assert s[m + 1] == t[k];
        }
      }
      ConsRanked(s[0], t, key, rank);
      assert Insert(x, s, key) == [s[0]] + t;
    }
  }

  /** The tail of a ranked list is ranked. */
  lemma RankedTail<T>(s: seq<T>, key: T -> real, rank: T -> int)
    requires s != [] && RankedWithinKeys(s, key, rank)
    ensures RankedWithinKeys(s[1..], key, rank)
  {
    var tail := s[1..];
    forall i, j | 0 <= i < j < |tail| && key(tail[i]) == key(tail[j]) ensures rank(tail[i]) < rank(tail[j]) {
      assert tail[i] == s[i + 1] && tail[j] == s[j + 1];
    }
  }

  /** An element ranked below every element of its key may go in front. */
  lemma ConsRanked<T>(x: T, s: seq<T>, key: T -> real, rank: T -> int)
    requires RankedWithinKeys(s, key, rank)
    requires forall k :: 0 <= k < |s| && key(s[k]) == key(x) ==> rank(x) < rank(s[k])
    ensures RankedWithinKeys([x] + s, key, rank)
  {
    var r := [x] + s;
    forall i, j | 0 <= i < j < |r| && key(r[i]) == key(r[j]) ensures rank(r[i]) < rank(r[j]) {
      assert r[j] == s[j - 1];
      if i > 0 { assert r[i] == s[i - 1]; }
    }
  }

  /** The sort keeps ranks increasing within each key: with the position of
      each element in a list without repeats as its rank, this is stability. */
  lemma {:induction false} SortRanked<T>(s: seq<T>, key: T -> real, rank: T -> int)
    requires RankedWithinKeys(s, key, rank)
    ensures RankedWithinKeys(SortDesc(s, key), key, rank)
  {
    if s != [] {
      var tail := s[1..];
      RankedTail(s, key, rank);
      SortRanked(tail, key, rank);
      var sorted := SortDesc(tail, key);
      SortDescFacts(tail, key);
      forall k | 0 <= k < |sorted| && key(sorted[k]) == key(s[0]) ensures rank(s[0]) < rank(sorted[k]) {
        assert sorted[k] in multiset(tail);
        var m :| 0 <= m < |tail| && tail[m] == sorted[k];
        assert s[m + 1] == sorted[k];
      }
      InsertRanked(s[0], sorted, key, rank);
    }
  }

  /** The position of an element's first occurrence, 0 for other values. */
  function FirstSeen<T(==)>(xs: seq<T>): T -> int {
    x => if x in xs then FirstIndex(xs, x) as int else 0
  }

  /** Elements of equal count are listed in the order of their first
      occurrence in `xs`. */
  lemma MostCommonTiesFirstSeen<T>(xs: seq<T>, n: nat)
    ensures var r := MostCommon(xs, n);
      forall i, j :: 0 <= i < j < |r| && Count(xs, r[i]) == Count(xs, r[j]) ==>
        r[i] in xs && r[j] in xs && FirstIndex(xs, r[i]) < FirstIndex(xs, r[j])
  {
    var d := Distinct(xs);
    var key, rank := CountKey(xs), FirstSeen(xs);
    DistinctFirstSeen(xs);
    assert RankedWithinKeys(d, key, rank);
    SortRanked(d, key, rank);
    var sorted := SortDesc(d, key);
    var r := MostCommon(xs, n);
    MostCommonShape(xs, n);
    forall i, j | 0 <= i < j < |r| && Count(xs, r[i]) == Count(xs, r[j])
      ensures FirstIndex(xs, r[i]) < FirstIndex(xs, r[j])
    {
      assert r[i] == sorted[i] && r[j] == sorted[j];
      assert key(sorted[i]) == key(sorted[j]);
    }
  }

  /** The counter's entries sorted by count keep first-seen order within
      each count. */
  lemma SortedByFirstSeen<T>(xs: seq<T>)
    ensures RankedWithinKeys(SortDesc(Distinct(xs), CountKey(xs)), CountKey(xs), FirstSeen(xs))
  {
    DistinctFirstSeen(xs);
    assert RankedWithinKeys(Distinct(xs), CountKey(xs), FirstSeen(xs));
    SortRanked(Distinct(xs), CountKey(xs), FirstSeen(xs));
  }

  /** Cutting a ranked list: an element left out ranks above every kept
      element of its key. */
  lemma RankedCut<T>(s: seq<T>, m: nat, key: T -> real, rank: T -> int)
    requires m <= |s| && RankedWithinKeys(s, key, rank)
    ensures forall x, i :: x in s && x !in s[..m] && 0 <= i < m && key(x) == key(s[i]) ==> rank(s[i]) < rank(x)
  {
    forall x, i | x in s && x !in s[..m] && 0 <= i < m && key(x) == key(s[i]) ensures rank(s[i]) < rank(x) {
      var j :| 0 <= j < |s| && s[j] == x;
      assert forall k :: 0 <= k < m ==> s[..m][k] == s[k];
      assert m <= j;
    }
  }

  /** At the cut, a left-out element of the same count as a listed one was
      first seen after it: of equal counts, the first-seen ones are kept. */
  lemma MostCommonCutFirstSeen<T>(xs: seq<T>, n: nat)
    ensures var r := MostCommon(xs, n);
      forall x, i :: x in xs && x !in r && 0 <= i < |r| && Count(xs, x) == Count(xs, r[i]) ==>
        r[i] in xs && FirstIndex(xs, r[i]) < FirstIndex(xs, x)
  {
    var r := MostCommon(xs, n);
    forall x, i | x in xs && x !in r && 0 <= i < |r| && Count(xs, x) == Count(xs, r[i])
      ensures r[i] in xs && FirstIndex(xs, r[i]) < FirstIndex(xs, x)
    {
      CutPair(xs, n, x, i);
    }
  }

  /** One pair at the cut of `MostCommonCutFirstSeen`. */
  lemma CutPair<T>(xs: seq<T>, n: nat, x: T, i: nat)
    requires x in xs && x !in MostCommon(xs, n) && i < |MostCommon(xs, n)|
    requires Count(xs, x) == Count(xs, MostCommon(xs, n)[i])
    ensures MostCommon(xs, n)[i] in xs && FirstIndex(xs, MostCommon(xs, n)[i]) < FirstIndex(xs, x)
  {
    var key, rank := CountKey(xs), FirstSeen(xs);
    var sorted := SortDesc(Distinct(xs), key);
    var r := MostCommon(xs, n);
    RankedDistinct(xs);
    SortedByFirstSeen(xs);
    var p :| 0 <= p < |xs| && xs[p] == x;
    assert x in sorted;
    assert r == sorted[..|r|];
    RankedCut(sorted, |r|, key, rank);
    assert r[i] == sorted[i] && key(x) == key(sorted[i]);
    assert rank(sorted[i]) < rank(x);
  }

  /** What `Counter(xs).most_common(n)` promises of its keys `r`: at most `n`
      distinct elements of `xs`, fewer only when all of them are listed, by
      non-increasing count, none left out more frequent than one listed, and
      equal counts in first-seen order, both among the listed elements and
      across the cut. */
  predicate IsMostCommon<T(==)>(r: seq<T>, xs: seq<T>, n: nat) {
    && |r| <= n && NoDuplicates(r)
    && (forall i :: 0 <= i < |r| ==> r[i] in xs)
    && (|r| == n || forall i :: 0 <= i < |xs| ==> xs[i] in r)
    && (forall i, j :: 0 <= i < j < |r| ==> Count(xs, r[i]) >= Count(xs, r[j]))
    && (forall x, i :: x in xs && x !in r && 0 <= i < |r| ==> Count(xs, x) <= Count(xs, r[i]))
    && (forall i, j :: 0 <= i < j < |r| && Count(xs, r[i]) == Count(xs, r[j]) ==>
          FirstIndex(xs, r[i]) < FirstIndex(xs, r[j]))
    && (forall x, i :: x in xs && x !in r && 0 <= i < |r| && Count(xs, x) == Count(xs, r[i]) ==>
          FirstIndex(xs, r[i]) < FirstIndex(xs, x))
  }

  /** Of `[1, 1, 2, 3]`, `2` and `3` both occur once: `most_common(2)`
      keeps `2`, seen first, so `[1, 3]` is not the two most common. */
  lemma TieAtCutExample()
    ensures !IsMostCommon([1, 3], [1, 1, 2, 3], 2)
  {
    var xs := [1, 1, 2, 3];
    assert xs[..3] == [1, 1, 2];
    assert [1, 1, 2][..2] == [1, 1];
    assert [1, 1][..1] == [1];
    assert [1][..0] == [];
    assert Count([1], 2) == 0 && Count([1, 1], 2) == 0 && Count([1, 1, 2], 2) == 1;
    assert Count([1], 3) == 0 && Count([1, 1], 3) == 0 && Count([1, 1, 2], 3) == 0;
    assert Count(xs, 2) == 1 && Count(xs, 3) == 1;
    assert xs[1..] == [1, 2, 3] && xs[1..][1..] == [2, 3] && xs[1..][1..][1..] == [3];
    assert FirstIndex(xs, 3) == 3 && FirstIndex(xs, 2) == 2;
    assert 2 in xs && 2 !in [1, 3] && [1, 3][1] == 3;
  }

  lemma MostCommonIsMostCommon<T>(xs: seq<T>, n: nat)
    ensures IsMostCommon(MostCommon(xs, n), xs, n)
  {
    MostCommonShape(xs, n);
    MostCommonOrder(xs, n);
    MostCommonTiesFirstSeen(xs, n);
    MostCommonCutFirstSeen(xs, n);
  }

  /** In a sequence without duplicates every element occurs once. */
  lemma DistinctCountOne<T>(d: seq<T>, x: T)
    requires NoDuplicates(d) && x in d
    ensures multiset(d)[x] == 1
  {
    var i :| 0 <= i < |d| && d[i] == x;
    assert d == d[..i] + [x] + d[i + 1..];
    assert x !in d[..i] && x !in d[i + 1..];
    assert multiset(d[..i])[x] == 0 && multiset(d[i + 1..])[x] == 0;
  }
}
