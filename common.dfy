/**
 * Helpers shared by the nemo model: the error/option wrappers used for the
 * exceptions the Python code raises, and the numpy reductions (sum, cumulative
 * sum, maximum, first index, count) the core relies on, with their laws.
 */
module Common {

  datatype Option<+T> = None | Some(value: T)
  {
    function GetOr(default: T): T
    {
      if Some? then value else default
    }
  }

  datatype Result<+T, +E> = Ok(value: T) | Err(error: E)
  {
    predicate IsFailure() { Err? }

    function PropagateFailure<U>(): Result<U, E>
      requires Err?
    {
      Err(error)
    }

    function Extract(): T
      requires Ok?
    {
      value
    }
  }

  /** Left-to-right sum, the order numpy's `sum` and `cumsum` accumulate in. */
  function Sum(s: seq<real>): real
  {
    if |s| == 0 then 0.0 else Sum(s[..|s| - 1]) + s[|s| - 1]
  }

  /** `np.cumsum`: entry i holds the sum of the first i + 1 values. */
  function CumSum(s: seq<real>): (r: seq<real>)
    ensures |r| == |s|
  {
    seq(|s|, i requires 0 <= i < |s| => Sum(s[..i + 1]))
  }

  /** `np.sum` over a 2-d grid: all cells, row by row. */
  function Flatten(g: seq<seq<real>>): (r: seq<real>)
  {
    if |g| == 0 then [] else Flatten(g[..|g| - 1]) + g[|g| - 1]
  }

  function SumAll(g: seq<seq<real>>): real
  {
    Sum(Flatten(g))
  }

  /** `grid.sum(axis = 1)`: one total per row. */
  function RowSums(g: seq<seq<real>>): (r: seq<real>)
    ensures |r| == |g|
  {
    seq(|g|, i requires 0 <= i < |g| => Sum(g[i]))
  }

  function Scale(s: seq<real>, c: real): (r: seq<real>)
    ensures |r| == |s|
    ensures forall i :: 0 <= i < |s| ==> r[i] == c * s[i]
  {
    seq(|s|, i requires 0 <= i < |s| => c * s[i])
  }

  function Abs(x: real): (r: real)
    ensures r >= 0.0 && (r == x || r == -x)
  {
    if x < 0.0 then -x else x
  }

  function AbsSeq(s: seq<real>): (r: seq<real>)
    ensures |r| == |s|
    ensures forall i :: 0 <= i < |s| ==> r[i] == Abs(s[i])
  {
    seq(|s|, i requires 0 <= i < |s| => Abs(s[i]))
  }

  predicate AllNonNeg(s: seq<real>)
  {
    forall i :: 0 <= i < |s| ==> s[i] >= 0.0
  }

  predicate GridNonNeg(g: seq<seq<real>>)
  {
    forall i :: 0 <= i < |g| ==> AllNonNeg(g[i])
  }

  predicate AllZero(s: seq<real>)
  {
    forall i :: 0 <= i < |s| ==> s[i] == 0.0
  }

  predicate Nondecreasing(s: seq<real>)
  {
    forall i, j :: 0 <= i <= j < |s| ==> s[i] <= s[j]
  }

  predicate StrictlyIncreasing(s: seq<real>)
  {
    forall i, j :: 0 <= i < j < |s| ==> s[i] < s[j]
  }

  /** Largest value of a non-empty sequence (`ndarray.max()`). */
  function Max(s: seq<real>): (m: real)
    requires |s| > 0
    ensures m in s
    ensures forall i :: 0 <= i < |s| ==> s[i] <= m
  {
    if |s| == 1 then s[0]
    else
      var rest := Max(s[..|s| - 1]);
      assert forall i :: 0 <= i < |s| - 1 ==> s[..|s| - 1][i] == s[i];
      if s[|s| - 1] > rest then s[|s| - 1] else rest
  }

  /** Number of positions holding `v`. */
  function Count(s: seq<real>, v: real): nat
  {
    if |s| == 0 then 0 else Count(s[..|s| - 1], v) + (if s[|s| - 1] == v then 1 else 0)
  }

  /** `np.where(s == v)[0][0]`: the first position holding `v`. */
  function FirstIndex(s: seq<real>, v: real): (k: nat)
    requires v in s
    ensures k < |s| && s[k] == v
    ensures forall j :: 0 <= j < k ==> s[j] != v
    ensures Count(s, v) > 1 ==> k < |s| - 1
    decreases |s|
  {
    if s[|s| - 1] == v && v !in s[..|s| - 1] then
      CountAbsent(s[..|s| - 1], v);
      |s| - 1
    else
      assert v in s[..|s| - 1] by {
        var w :| 0 <= w < |s| && s[w] == v;
        if w == |s| - 1 { assert v !in s[..|s| - 1] ==> false; } else { assert s[..|s| - 1][w] == v; }
      }
      var k := FirstIndex(s[..|s| - 1], v);
      assert forall j :: 0 <= j <= k ==> s[..|s| - 1][j] == s[j];
      k
  }

  lemma {:induction false} CountAbsent(s: seq<real>, v: real)
    requires v !in s
    ensures Count(s, v) == 0
    decreases |s|
  {
    if |s| > 0 {
      assert forall x :: x in s[..|s| - 1] ==> x in s;
      CountAbsent(s[..|s| - 1], v);
    }
  }

  lemma {:induction false} CountPositive(s: seq<real>, v: real)
    requires v in s
    ensures Count(s, v) >= 1
    decreases |s|
  {
    if s[|s| - 1] != v {
      var w :| 0 <= w < |s| && s[w] == v;
      assert s[..|s| - 1][w] == v;
      CountPositive(s[..|s| - 1], v);
    }
  }

  /** A value counted in a prefix is counted at least as often in the whole. */
  lemma {:induction false} CountPrefix(s: seq<real>, k: nat, v: real)
    requires k <= |s|
    ensures Count(s[..k], v) <= Count(s, v)
    decreases |s|
  {
    if k < |s| {
      assert s[..|s| - 1][..k] == s[..k];
      CountPrefix(s[..|s| - 1], k, v);
    } else {
      assert s[..k] == s;
    }
  }

  /** Count of `v` is the count in the prefix plus the count in the rest. */
  lemma {:induction false} CountConcat(a: seq<real>, b: seq<real>, v: real)
    ensures Count(a + b, v) == Count(a, v) + Count(b, v)
    decreases |b|
  {
    if |b| > 0 {
      assert (a + b)[..|a + b| - 1] == a + b[..|b| - 1];
      CountConcat(a, b[..|b| - 1], v);
    } else {
      assert a + b == a;
    }
  }

  lemma {:induction false} SumConcat(a: seq<real>, b: seq<real>)
    ensures Sum(a + b) == Sum(a) + Sum(b)
    decreases |b|
  {
    if |b| > 0 {
      assert (a + b)[..|a + b| - 1] == a + b[..|b| - 1];
      SumConcat(a, b[..|b| - 1]);
    } else {
      assert a + b == a;
    }
  }

  /** The sum of a grid's cells equals the sum of its row totals. */
  lemma {:induction false} SumAllIsSumOfRowSums(g: seq<seq<real>>)
    ensures SumAll(g) == Sum(RowSums(g))
    decreases |g|
  {
    if |g| > 0 {
      var init := g[..|g| - 1];
      SumAllIsSumOfRowSums(init);
      SumConcat(Flatten(init), g[|g| - 1]);
      assert RowSums(g)[..|g| - 1] == RowSums(init);
    }
  }

  lemma {:induction false} SumNonNeg(s: seq<real>)
    requires AllNonNeg(s)
    ensures Sum(s) >= 0.0
    decreases |s|
  {
    if |s| > 0 {
      SumNonNeg(s[..|s| - 1]);
    }
  }

  lemma {:induction false} SumZero(s: seq<real>)
    requires AllZero(s)
    ensures Sum(s) == 0.0
    decreases |s|
  {
    if |s| > 0 {
      SumZero(s[..|s| - 1]);
    }
  }

  /** Sums are monotone in each entry. */
  lemma {:induction false} SumMonotone(a: seq<real>, b: seq<real>)
    requires |a| == |b|
    requires forall i :: 0 <= i < |a| ==> a[i] <= b[i]
    ensures Sum(a) <= Sum(b)
    decreases |a|
  {
    if |a| > 0 {
      SumMonotone(a[..|a| - 1], b[..|b| - 1]);
    }
  }

  /** Sums are linear: a constant factor comes out of the sum. */
  lemma {:induction false} SumScale(s: seq<real>, c: real)
    ensures Sum(Scale(s, c)) == c * Sum(s)
    decreases |s|
  {
    if |s| > 0 {
      var init := s[..|s| - 1];
      var sc := Scale(s, c);
      assert forall i :: 0 <= i < |init| ==> sc[..|s| - 1][i] == Scale(init, c)[i];
      assert sc[..|s| - 1] == Scale(init, c);
      SumScale(init, c);
      assert Sum(sc) == Sum(Scale(init, c)) + c * s[|s| - 1];
      assert c * Sum(init) + c * s[|s| - 1] == c * (Sum(init) + s[|s| - 1]);
    }
  }

  lemma {:induction false} SelfRatio(x: real)
    requires x != 0.0
    ensures x / x == 1.0
  {
  }

  lemma {:induction false} FractionBounds(x: real, y: real)
    requires y > 0.0 && 0.0 <= x <= y
    ensures 0.0 <= x / y <= 1.0
  {
  }

  /** Entries that agree give equal sums (extensionality for sums). */
  lemma {:induction false} SumPointwise(a: seq<real>, b: seq<real>)
    requires |a| == |b|
    requires forall i :: 0 <= i < |a| ==> a[i] == b[i]
    ensures Sum(a) == Sum(b)
  {
    assert a == b;
  }

  /** A grid of non-negative cells has non-negative row sums and total. */
  lemma {:induction false} GridNonNegSums(g: seq<seq<real>>)
    requires GridNonNeg(g)
    ensures AllNonNeg(RowSums(g))
    ensures SumAll(g) >= 0.0
  {
    forall i | 0 <= i < |g| ensures RowSums(g)[i] >= 0.0 {
      SumNonNeg(g[i]);
    }
    SumAllIsSumOfRowSums(g);
    SumNonNeg(RowSums(g));
  }

  /** The cumulative sum of non-negative values rises, and ends at the total. */
  lemma {:induction false} CumSumOfNonNeg(s: seq<real>)
    requires AllNonNeg(s)
    ensures Nondecreasing(CumSum(s))
    ensures |s| > 0 ==> CumSum(s)[|s| - 1] == Sum(s)
    ensures forall i :: 0 <= i < |s| ==> CumSum(s)[i] >= 0.0
  {
    var c := CumSum(s);
    forall i, j | 0 <= i <= j < |s| ensures c[i] <= c[j] {
      assert c[i] == Sum(s[..i + 1]) && c[j] == Sum(s[..j + 1]);
      CumSumStep(s, i, j);
    }
    forall i | 0 <= i < |s| ensures c[i] >= 0.0 {
      assert c[i] == Sum(s[..i + 1]);
      assert AllNonNeg(s[..i + 1]);
      SumNonNeg(s[..i + 1]);
    }
    if |s| > 0 {
      assert s[..|s|] == s;
    }
  }

  lemma {:induction false} CumSumStep(s: seq<real>, i: nat, j: nat)
    requires AllNonNeg(s)
    requires i <= j < |s|
    ensures Sum(s[..i + 1]) <= Sum(s[..j + 1])
    decreases j - i
  {
    if i < j {
      CumSumStep(s, i, j - 1);
      assert s[..j + 1][..j] == s[..j];
    }
  }

  /**
   * Python 2 `round` on a float to an integer: nearest integer, halves go
   * away from zero.
   */
  function RoundHalfAway(x: real): (n: int)
    ensures Abs(x - n as real) <= 0.5
    ensures Abs(x - n as real) == 0.5 ==> Abs(n as real) > Abs(x)
    ensures x >= 0.0 ==> n >= 0
  {
    if x >= 0.0 then (x + 0.5).Floor else -((-x + 0.5).Floor)
  }

  /** Python's `int()` on a float: truncation toward zero. */
  function TruncToInt(x: real): (n: int)
    ensures Abs(n as real) <= Abs(x)
    ensures Abs(x - n as real) < 1.0
    ensures x >= 0.0 ==> n >= 0
  {
    if x >= 0.0 then x.Floor else -((-x).Floor)
  }
}
