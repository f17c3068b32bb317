/**
 * Ascending sort of a number series, as `array.sort((a, b) => a - b)` leaves it,
 * and the order statistics read off a sorted series.
 */
module Sorting {
  import opened Numerics

  predicate IsSorted(s: seq<real>) {
    forall i, j :: 0 <= i < j < |s| ==> s[i] <= s[j]
  }

  function Insert(x: real, s: seq<real>): (r: seq<real>)
    requires IsSorted(s)
    ensures IsSorted(r) && multiset(r) == multiset(s) + multiset{x}
  {
    if s == [] then [x]
    else if x <= s[0] then [x] + s
    else
      var t := Insert(x, s[1..]);
      HeadBelowRest(s, x, t);
      assert s == [s[0]] + s[1..];
      [s[0]] + t
  }

  lemma HeadBelowRest(s: seq<real>, x: real, t: seq<real>)
    requires IsSorted(s) && |s| > 0 && s[0] < x
    requires multiset(t) == multiset(s[1..]) + multiset{x}
    ensures forall j :: 0 <= j < |t| ==> s[0] <= t[j]
  {
    forall j | 0 <= j < |t|
      ensures s[0] <= t[j]
    {
      assert t[j] in multiset(t);
      if t[j] != x {
        assert t[j] in multiset(s[1..]);
        assert t[j] in s[1..];
      }
    }
  }

  /** The ascending permutation of s. */
  function Sort(s: seq<real>): (r: seq<real>)
    ensures IsSorted(r) && multiset(r) == multiset(s) && |r| == |s|
  {
    if s == [] then []
    else
      assert s == [s[0]] + s[1..];
      Insert(s[0], Sort(s[1..]))
  }

  /** The first entry of the sorted series is the minimum and the last the maximum, both taken from s. */
  lemma SortedExtremes(s: seq<real>)
    requires |s| > 0
    ensures Sort(s)[0] in s && Sort(s)[|s| - 1] in s
    ensures forall x :: x in s ==> Sort(s)[0] <= x <= Sort(s)[|s| - 1]
  {
    PermutationExtremes(Sort(s), s);
  }

  lemma PermutationExtremes(r: seq<real>, s: seq<real>)
    requires IsSorted(r) && multiset(r) == multiset(s) && |r| == |s| > 0
    ensures r[0] in s && r[|s| - 1] in s
    ensures forall x :: x in s ==> r[0] <= x <= r[|s| - 1]
  {
    InMultiset(r, 0, s);
    InMultiset(r, |s| - 1, s);
    forall x | x in s
      ensures r[0] <= x <= r[|s| - 1]
    {
      var j := IndexOf(r, x, s);
      SortedBetween(r, j);
    }
  }

  lemma InMultiset(r: seq<real>, k: nat, s: seq<real>)
    requires k < |r| && multiset(r) == multiset(s)
    ensures r[k] in s
  {
    assert r[k] in multiset(r);
  }

  lemma IndexOf(r: seq<real>, x: real, s: seq<real>) returns (j: nat)
    requires x in s && multiset(r) == multiset(s)
    ensures j < |r| && r[j] == x
  {
    assert x in multiset(s);
    assert x in r;
    j :| 0 <= j < |r| && r[j] == x;
  }

  lemma SortedBetween(r: seq<real>, j: nat)
    requires IsSorted(r) && j < |r|
    ensures r[0] <= r[j] <= r[|r| - 1]
  {
  }

  /** Every entry of a sorted series before position k is at most its k-th entry. */
  lemma {:induction false} PrefixSumBelow(r: seq<real>, k: nat)
    requires IsSorted(r) && k < |r|
    ensures SumFirst(r, k) <= k as real * r[k]
  {
    SumFirstBounded(r, k, r[k]);
  }

  /** The mean of the first k entries of a sorted series lies between its first and its k-th entry. */
  lemma {:induction false} PrefixMeanBetween(r: seq<real>, k: nat)
    requires IsSorted(r) && 0 < k < |r|
    ensures r[0] <= SumFirst(r, k) / k as real <= r[k]
  {
    PrefixSumBelow(r, k);
    PrefixSumAbove(r, k);
    DivisionBetween(SumFirst(r, k), k as real, r[0], r[k]);
  }

  lemma {:induction false} PrefixSumAbove(r: seq<real>, k: nat)
    requires IsSorted(r) && 0 < k <= |r|
    ensures k as real * r[0] <= SumFirst(r, k)
  {
    if k > 1 {
      PrefixSumAbove(r, k - 1);
    }
  }

  /**
   * The end index `slice(0, e)` uses on a series of length n: a negative end
   * counts from the back, and an end past the length stops at the length.
   */
  function SliceEnd(n: nat, e: int): (k: nat)
    ensures k <= n
    ensures 0 <= e <= n ==> k == e
  {
    if e < 0 then (if n + e < 0 then 0 else n + e) else if e > n then n else e
  }

  /**
   * `sorted.slice(0, cutoff).reduce((a, b) => a + b, 0) / cutoff`; None when the
   * cutoff is 0, where JavaScript computes 0 / 0.
   */
  function TailMean(sorted: seq<real>, cutoff: int): (m: Option<real>)
    ensures m.None? <==> cutoff == 0
  {
    if cutoff == 0 then None else Some(SumFirst(sorted, SliceEnd(|sorted|, cutoff)) / cutoff as real)
  }

  /**
   * For a cutoff strictly inside a sorted series, the tail mean lies between the
   * smallest entry and the entry at the cutoff.
   */
  lemma TailMeanBetween(sorted: seq<real>, cutoff: int)
    requires IsSorted(sorted) && 0 < cutoff < |sorted|
    ensures TailMean(sorted, cutoff).Some?
    ensures sorted[0] <= TailMean(sorted, cutoff).value <= sorted[cutoff]
  {
    PrefixMeanBetween(sorted, cutoff);
  }

  /** `Math.floor((1 - confidence) * n)`: the size of the loss tail. */
  function Cutoff(confidence: real, n: nat): int {
    ((1.0 - confidence) * n as real).Floor
  }

  /**
   * An in-place ascending sort, `a.sort((x, y) => x - y)`. The engine's sorting
   * algorithm is not modelled: the ascending permutation is computed by `Sort`
   * and the loop only writes it back into the caller's array.
   */
  method SortInPlace(a: array<real>)
    modifies a
    ensures a[..] == Sort(old(a[..]))
  {
    var sorted := Sort(a[..]);
    var i := 0;
    while i < a.Length
      invariant 0 <= i <= a.Length
      invariant forall k :: 0 <= k < i ==> a[k] == sorted[k]
    {
      a[i] := sorted[i];
      i := i + 1;
    }
    assert a[..] == sorted;
  }

  /** The reduce over `slice(0, k)`. */
  method SumPrefix(s: seq<real>, k: nat) returns (sum: real)
    requires k <= |s|
    ensures sum == SumFirst(s, k)
  {
    sum := 0.0;
    var i := 0;
    while i < k
      invariant 0 <= i <= k
      invariant sum == SumFirst(s, i)
    {
      sum := sum + s[i];
      i := i + 1;
    }
  }
}
