/**
 * Histograms over S/N bins and their cumulative (suffix) sums, as the
 * contamination estimates of `maps.py` and `simsTools.py` compute them with
 * `np.histogram` and `hist[i:].sum()`.
 */
module Binning {
  import opened Common

  /**
   * Bin `i` of `np.histogram`: the half-open interval `[edges[i], edges[i+1])`,
   * except the last bin, which also holds its upper edge.
   */
  predicate InBin(v: real, edges: seq<real>, i: int)
  {
    0 <= i < |edges| - 1 && edges[i] <= v &&
    (v < edges[i + 1] || (i == |edges| - 2 && v == edges[i + 1]))
  }

  /** How many values fall in bin `i`. */
  function CountInBin(values: seq<real>, edges: seq<real>, i: int): nat
    decreases |values|
  {
    if |values| == 0 then 0
    else CountInBin(values[..|values| - 1], edges, i) + (if InBin(values[|values| - 1], edges, i) then 1 else 0)
  }

  /** How many values lie in the closed interval `[lo, hi]`. */
  function CountBetween(values: seq<real>, lo: real, hi: real): nat
    decreases |values|
  {
    if |values| == 0 then 0
    else CountBetween(values[..|values| - 1], lo, hi) + (if lo <= values[|values| - 1] <= hi then 1 else 0)
  }

  /** The counts `np.histogram(values, bins = edges)` returns. */
  function Histogram(values: seq<real>, edges: seq<real>): (h: seq<int>)
    requires |edges| >= 2
    ensures |h| == |edges| - 1
    ensures forall i :: 0 <= i < |h| ==> h[i] >= 0
  {
    seq(|edges| - 1, i requires 0 <= i < |edges| - 1 => CountInBin(values, edges, i))
  }

  /** Sum of integer counts. */
  function ISum(s: seq<int>): int
    decreases |s|
  {
    if |s| == 0 then 0 else s[0] + ISum(s[1..])
  }

  /** With increasing edges, a value falls in at most one bin. */
  lemma {:induction false} BinUnique(v: real, edges: seq<real>, i: int, j: int)
    requires StrictlyIncreasing(edges)
    requires InBin(v, edges, i) && InBin(v, edges, j)
    ensures i == j
  {
  }

  /** Bin `i` and everything at or above the next edge make up everything at or above edge `i`. */
  lemma {:induction false} CountSplit(values: seq<real>, edges: seq<real>, i: nat)
    requires StrictlyIncreasing(edges) && i + 2 < |edges|
    ensures CountInBin(values, edges, i) + CountBetween(values, edges[i + 1], edges[|edges| - 1]) ==
            CountBetween(values, edges[i], edges[|edges| - 1])
    decreases |values|
  {
    if |values| > 0 {
      CountSplit(values[..|values| - 1], edges, i);
      assert edges[i] < edges[i + 1] <= edges[|edges| - 1];
    }
  }

  /** The last bin is closed at both ends. */
  lemma {:induction false} CountLastBin(values: seq<real>, edges: seq<real>)
    requires |edges| >= 2
    ensures CountInBin(values, edges, |edges| - 2) == CountBetween(values, edges[|edges| - 2], edges[|edges| - 1])
    decreases |values|
  {
    if |values| > 0 {
      CountLastBin(values[..|values| - 1], edges);
    }
  }

  /**
   * The suffix sum from bin `i` counts the values at or above edge `i`
   * (and within the last edge): the cumulative "above this S/N" count.
   */
  lemma {:induction false} SuffixCountsAbove(values: seq<real>, edges: seq<real>, i: nat)
    requires StrictlyIncreasing(edges) && i < |edges| - 1
    ensures ISum(Histogram(values, edges)[i..]) == CountBetween(values, edges[i], edges[|edges| - 1])
    decreases |edges| - i
  {
    var h := Histogram(values, edges);
    assert h[i..][1..] == h[i + 1..];
    if i + 2 < |edges| {
      SuffixCountsAbove(values, edges, i + 1);
      CountSplit(values, edges, i);
    } else {
      assert h[i + 1..] == [];
      CountLastBin(values, edges);
    }
  }

  /** `[hist[i:].sum() for i in range(len(hist))]`: the counts at or beyond each bin. */
  function SuffixSumsOf(h: seq<int>): (r: seq<int>)
    ensures |r| == |h|
  {
    seq(|h|, i requires 0 <= i < |h| => ISum(h[i..]))
  }

  /** The loop `for i in range(n): cumSum.append(hist[i:].sum())`. */
  method SuffixSums(hist: seq<int>) returns (cumSum: seq<int>)
    ensures |cumSum| == |hist|
    ensures forall i :: 0 <= i < |hist| ==> cumSum[i] == ISum(hist[i..])
    ensures cumSum == SuffixSumsOf(hist)
  {
    cumSum := [];
    var i := 0;
    while i < |hist|
      invariant 0 <= i <= |hist|
      invariant |cumSum| == i
      invariant forall k :: 0 <= k < i ==> cumSum[k] == ISum(hist[k..])
    {
      var total := SumFrom(hist, i);
      cumSum := cumSum + [total];
      i := i + 1;
    }
  }

  /** `hist[i:].sum()`, accumulated from the right. */
  method SumFrom(hist: seq<int>, i: nat) returns (total: int)
    requires i <= |hist|
    ensures total == ISum(hist[i..])
  {
    total := 0;
    var j := |hist|;
    while j > i
      invariant i <= j <= |hist|
      invariant total == ISum(hist[j..])
    {
      j := j - 1;
      assert hist[j..][1..] == hist[j + 1..];
      total := total + hist[j];
    }
  }

  /** Suffix sums of counts are nonincreasing and start from the total. */
  lemma {:induction false} SuffixSumsNonincreasing(hist: seq<int>, i: nat, j: nat)
    requires forall k :: 0 <= k < |hist| ==> hist[k] >= 0
    requires i <= j <= |hist|
    ensures ISum(hist[i..]) >= ISum(hist[j..]) >= 0
    decreases j - i, |hist| - j
  {
    if i < j {
      assert hist[i..][1..] == hist[i + 1..];
      SuffixSumsNonincreasing(hist, i + 1, j);
    } else if j < |hist| {
      assert hist[j..][1..] == hist[j + 1..];
      SuffixSumsNonincreasing(hist, j + 1, j + 1);
    }
  }

  /** The suffix sums of counts are counts. */
  lemma {:induction false} SuffixSumsNonNeg(h: seq<int>)
    requires forall i :: 0 <= i < |h| ==> h[i] >= 0
    ensures forall i :: 0 <= i < |h| ==> SuffixSumsOf(h)[i] >= 0
  {
    forall i | 0 <= i < |h|
      ensures SuffixSumsOf(h)[i] >= 0
    {
      SuffixSumsNonincreasing(h, i, |h|);
    }
  }
}
