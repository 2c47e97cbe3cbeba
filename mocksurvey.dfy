/**
 * nemo/MockSurvey.py: the expected number of galaxy clusters on a grid of
 * redshift shells and halo masses, the detection probabilities attached to it
 * by a selection function, the expected counts above a mass limit, and the
 * drawing of mock cluster catalogues from the grid.
 *
 * The halo mass function (hmf), the comoving volume (astropy), the spline
 * fits (scipy.interpolate), the normal survival function (scipy.stats) and the
 * y0 - mass scaling relations (simsTools) are not part of this model: they are
 * the function-valued fields of `Library` and `Scaling`, constrained only by
 * the facts the code relies on.
 */
module MockSurvey {
  import opened Common

  /** Number of redshift bin edges: `np.linspace(zMin, zMax, 201)`. */
  const NumZEdges: nat := 201
  const NumShells: nat := 200
  const Pi: real := 3.141592653589793
  /** Units of `M500Limit` in `calcNumClustersExpected`. */
  const MassUnit: real := 100000000000000.0

  /** A flat Lambda-CDM cosmology with the power-spectrum normalisation. */
  datatype Cosmology = Cosmology(H0: real, Om0: real, Ob0: real, sigma8: real)

  /** Parameters of the y0 - M500 scaling relation (`scalingRelationDict`). */
  datatype ScalingRelation = ScalingRelation(tenToA0: real, B0: real, Mpivot: real, sigmaInt: real)

  const DefaultScaling := ScalingRelation(0.0000495, 0.08, 300000000000000.0, 0.2)

  /**
   * The mass function and cosmology libraries, as pure functions of the
   * cosmology the mass-function object currently holds.
   */
  datatype Library = Library(
    massBins: nat,
    // hmf_integral_gtm at redshift z: number density above each mass (Mpc^-3)
    numberAbove: (Cosmology, real) -> seq<real>,
    // comoving volume out to redshift z (Mpc^3)
    comovingVolume: (Cosmology, real) -> real,
    // the mass grid `mf.m / mf.cosmo.h` in MSun, and its log10
    massesMsun: Cosmology -> seq<real>,
    log10Masses: Cosmology -> seq<real>,
    // splev(u, splrep(xs, ys)): the interpolating spline through (xs, ys) at u
    splev: (seq<real>, seq<real>, real) -> real)

  /** The facts about the libraries the code depends on. */
  ghost predicate WellFormed(lib: Library)
  {
    && lib.massBins >= 2
    && (forall c, z :: |lib.numberAbove(c, z)| == lib.massBins)
    && (forall c :: |lib.massesMsun(c)| == lib.massBins)
    && (forall c :: |lib.log10Masses(c)| == lib.massBins)
    && (forall c, z1, z2 :: z1 <= z2 ==> lib.comovingVolume(c, z1) <= lib.comovingVolume(c, z2))
  }

  /** Result of `calcM500Fromy0` (the 'Uncorr' columns kept in the mock table). */
  datatype MassEstimate = MassEstimate(M500Uncorr: real, errPlus: real, errMinus: real)

  /** The scaling-relation and statistics functions of simsTools / scipy.stats. */
  datatype Scaling = Scaling(
    // y0FromLogM500(log10M, z, tckQFit, ...): None means the function's own defaults
    y0FromLogM500: (real, real, Option<ScalingRelation>) -> real,
    // calcM500Fromy0(measured y0, y0 error, z, ..., mockSurvey)
    calcM500Fromy0: (real, real, real, ScalingRelation, Cosmology) -> MassEstimate,
    // stats.norm.sf(x, loc, scale)
    normSF: (real, real, real) -> real,
    // np.power(10, x)
    pow10: real -> real)

  ghost predicate ScalingOk(st: Scaling)
  {
    forall x, loc, scale :: 0.0 <= st.normSF(x, loc, scale) <= 1.0
  }

  /** The parts of a survey selection function that MockSurvey reads. */
  datatype SurveySelFn = SurveySelFn(
    ycLimits: seq<real>,             // ycLimitTab['ycLimit'], one per tile
    fracSurveyArea: seq<real>,       // ycLimitTab['fracSurveyArea']
    SNRCut: real,
    ycLimitSurveyAverage: seq<real>,
    ycLimitAtRedshift: real -> real) // getSurveyAverage_ycLimitAtRedshift

  predicate SelFnOk(sf: SurveySelFn)
  {
    && |sf.fracSurveyArea| == |sf.ycLimits|
    && sf.SNRCut > 0.0
  }

  /** `ycLimit_surveyAverage` is non-empty with a positive sum, so the survey-averaged noise is positive. */
  predicate SurveyNoiseOk(sf: SurveySelFn)
  {
    |sf.ycLimitSurveyAverage| > 0 && Sum(sf.ycLimitSurveyAverage) > 0.0
  }

  /** What `addSelFn` attaches: the selection function and the completeness grids. */
  datatype SelFnState = SelFnState(
    sf: SurveySelFn,
    stats: Scaling,
    scaling: ScalingRelation,
    completeness: seq<seq<seq<real>>>,  // M500Completeness[tile][z][M]
    surveyAverage: seq<seq<real>>)     // M500Completeness_surveyAverage[z][M]

  // ---------------------------------------------------------------- the grid

  /** `np.linspace(zMin, zMax, 201)`. */
  function Edges(zMin: real, zMax: real): (e: seq<real>)
    ensures |e| == NumZEdges
    ensures e[0] == zMin && e[NumZEdges - 1] == zMax
  {
    seq(NumZEdges, k requires 0 <= k < NumZEdges => zMin + (k as real) * (zMax - zMin) / (NumShells as real))
  }

  /** Shell mid-points `(zRange[:-1] + zRange[1:]) / 2`. */
  function Centres(e: seq<real>): (c: seq<real>)
    requires |e| >= 1
    ensures |c| == |e| - 1
  {
    seq(|e| - 1, i requires 0 <= i < |e| - 1 => (e[i] + e[i + 1]) / 2.0)
  }

  /** For an increasing range the edges increase strictly. */
  lemma {:induction false} EdgesIncreasing(zMin: real, zMax: real)
    requires zMin < zMax
    ensures StrictlyIncreasing(Edges(zMin, zMax))
  {
    var e := Edges(zMin, zMax);
    var step := (zMax - zMin) / (NumShells as real);
    assert step > 0.0;
    forall i, j | 0 <= i < j < NumZEdges ensures e[i] < e[j] {
      assert e[i] == zMin + (i as real) * (zMax - zMin) / (NumShells as real);
      assert e[j] == zMin + (j as real) * (zMax - zMin) / (NumShells as real);
      StepsIncrease(i, j, zMax - zMin, NumShells as real);
    }
  }

  lemma {:induction false} StepsIncrease(i: nat, j: nat, d: real, n: real)
    requires i < j && d > 0.0 && n > 0.0
    ensures (i as real) * d / n < (j as real) * d / n
  {
    assert (i as real) * d < (j as real) * d;
  }

  /** Each shell's centre lies strictly inside the shell. */
  predicate CentresInside(e: seq<real>)
    requires |e| >= 1
  {
    forall i :: 0 <= i < |e| - 1 ==> e[i] < Centres(e)[i] < e[i + 1]
  }

  /** For an increasing range the shells are ordered and each centre lies inside its shell. */
  lemma {:induction false} EdgesAndCentres(zMin: real, zMax: real)
    requires zMin < zMax
    ensures StrictlyIncreasing(Edges(zMin, zMax))
    ensures CentresInside(Edges(zMin, zMax))
    ensures StrictlyIncreasing(Centres(Edges(zMin, zMax)))
  {
    EdgesIncreasing(zMin, zMax);
    CentresBetween(Edges(zMin, zMax));
  }

  /** The mid-points of strictly increasing edges lie inside their shells and increase. */
  lemma {:induction false} CentresBetween(e: seq<real>)
    requires |e| >= 1 && StrictlyIncreasing(e)
    ensures CentresInside(e)
    ensures StrictlyIncreasing(Centres(e))
  {
    var c := Centres(e);
    forall i | 0 <= i < |e| - 1 ensures e[i] < c[i] < e[i + 1] {
      assert e[i] < e[i + 1];
    }
    forall i, j | 0 <= i < j < |e| - 1 ensures c[i] < c[j] {
      assert e[i] < e[j] && e[i + 1] < e[j + 1];
    }
  }

  /** `np.radians(np.sqrt(areaDeg2))**2` for a non-negative area. */
  function AreaSr(areaDeg2: real): (a: real)
    requires areaDeg2 >= 0.0
    ensures a >= 0.0 && (a == 0.0 <==> areaDeg2 == 0.0)
  {
    areaDeg2 * (Pi / 180.0) * (Pi / 180.0)
  }

  /** `np.gradient` with unit spacing: one-sided at the ends, central inside. */
  function Gradient(n: seq<real>): (g: seq<real>)
    requires |n| >= 2
    ensures |g| == |n|
  {
    seq(|n|, j requires 0 <= j < |n| =>
      if j == 0 then n[1] - n[0]
      else if j == |n| - 1 then n[j] - n[j - 1]
      else (n[j + 1] - n[j - 1]) / 2.0)
  }

  /** A cumulative density that does not rise with mass has a non-positive gradient. */
  lemma {:induction false} GradientOfNonincreasing(n: seq<real>)
    requires |n| >= 2
    requires forall i, j :: 0 <= i <= j < |n| ==> n[j] <= n[i]
    ensures forall j :: 0 <= j < |n| ==> Gradient(n)[j] <= 0.0
    ensures AbsSeq(Gradient(n)) == Scale(Gradient(n), -1.0)
  {
  }

  function SkyFraction(areaSr: real): real
  {
    areaSr / (4.0 * Pi)
  }

  function ShellVolume(lib: Library, c: Cosmology, e: seq<real>, areaSr: real, i: nat): real
    requires i + 1 < |e|
  {
    (lib.comovingVolume(c, e[i + 1]) - lib.comovingVolume(c, e[i])) * SkyFraction(areaSr)
  }

  function ShellVolumes(lib: Library, c: Cosmology, e: seq<real>, areaSr: real): (v: seq<real>)
    requires |e| >= 1
    ensures |v| == |e| - 1
  {
    seq(|e| - 1, i requires 0 <= i < |e| - 1 => ShellVolume(lib, c, e, areaSr, i))
  }

  /** `abs(np.gradient(n))` at the shell mid-point: the number density in each mass bin. */
  function ShellDensity(lib: Library, c: Cosmology, e: seq<real>, i: nat): (n: seq<real>)
    requires WellFormed(lib)
    requires i + 1 < |e|
    ensures |n| == lib.massBins
  {
    AbsSeq(Gradient(lib.numberAbove(c, (e[i + 1] + e[i]) / 2.0)))
  }

  function DensityGrid(lib: Library, c: Cosmology, e: seq<real>): (g: seq<seq<real>>)
    requires WellFormed(lib)
    requires |e| >= 1
    ensures |g| == |e| - 1
  {
    seq(|e| - 1, i requires 0 <= i < |e| - 1 => ShellDensity(lib, c, e, i))
  }

  /** Expected clusters per (shell, mass bin): density times the shell volume in the survey area. */
  function CountGrid(lib: Library, c: Cosmology, e: seq<real>, areaSr: real): (g: seq<seq<real>>)
    requires WellFormed(lib)
    requires |e| >= 1
    ensures |g| == |e| - 1
    ensures forall i :: 0 <= i < |g| ==> |g[i]| == lib.massBins
  {
    seq(|e| - 1, i requires 0 <= i < |e| - 1 =>
      Scale(ShellDensity(lib, c, e, i), ShellVolume(lib, c, e, areaSr, i)))
  }

  /** With ordered edges and a non-negative area every expected count is non-negative. */
  lemma {:induction false} CountsNonNeg(lib: Library, c: Cosmology, e: seq<real>, areaSr: real)
    requires WellFormed(lib)
    requires |e| >= 1 && Nondecreasing(e)
    requires areaSr >= 0.0
    ensures GridNonNeg(CountGrid(lib, c, e, areaSr))
    ensures SumAll(CountGrid(lib, c, e, areaSr)) >= 0.0
  {
    var g := CountGrid(lib, c, e, areaSr);
    forall i | 0 <= i < |g| ensures AllNonNeg(g[i]) {
      var v := ShellVolume(lib, c, e, areaSr, i);
      assert e[i] <= e[i + 1];
      assert lib.comovingVolume(c, e[i]) <= lib.comovingVolume(c, e[i + 1]);
      assert SkyFraction(areaSr) >= 0.0;
      assert v >= 0.0;
      forall j | 0 <= j < |g[i]| ensures g[i][j] >= 0.0 {
        assert g[i][j] == v * ShellDensity(lib, c, e, i)[j];
      }
    }
    GridNonNegSums(g);
  }

  /** A survey of zero area expects no clusters at all. */
  lemma {:induction false} ZeroAreaZeroCounts(lib: Library, c: Cosmology, e: seq<real>)
    requires WellFormed(lib)
    requires |e| >= 1
    ensures SumAll(CountGrid(lib, c, e, 0.0)) == 0.0
  {
    var g := CountGrid(lib, c, e, 0.0);
    forall i | 0 <= i < |g| ensures AllZero(g[i]) && Sum(g[i]) == 0.0 {
      assert ShellVolume(lib, c, e, 0.0, i) == 0.0;
      SumZero(g[i]);
    }
    SumAllIsSumOfRowSums(g);
    SumZero(RowSums(g));
  }

  /** The shell volumes add up to the volume between the first and the last edge. */
  lemma {:induction false} VolumeTelescopes(lib: Library, c: Cosmology, e: seq<real>, areaSr: real, k: nat)
    requires 1 <= k <= |e|
    ensures Sum(ShellVolumes(lib, c, e, areaSr)[..k - 1]) ==
      (lib.comovingVolume(c, e[k - 1]) - lib.comovingVolume(c, e[0])) * SkyFraction(areaSr)
  {
    var v := ShellVolumes(lib, c, e, areaSr);
    if k > 1 {
      VolumeTelescopes(lib, c, e, areaSr, k - 1);
      assert v[..k - 1][..k - 2] == v[..k - 2];
      var f := SkyFraction(areaSr);
      var a, b, d := lib.comovingVolume(c, e[0]), lib.comovingVolume(c, e[k - 2]), lib.comovingVolume(c, e[k - 1]);
      assert v[k - 2] == (d - b) * f;
      assert (b - a) * f + (d - b) * f == (d - a) * f;
    }
  }

  // ---------------------------------------------------- sampling preparation

  /** `np.cumsum(row) / row.sum()`. */
  function Cdf(row: seq<real>): (p: seq<real>)
    requires Sum(row) != 0.0
    ensures |p| == |row|
  {
    seq(|row|, i requires 0 <= i < |row| => CumSum(row)[i] / Sum(row))
  }

  /** A row of non-negative counts with a positive total gives a distribution function. */
  lemma {:induction false} CdfOfNonNeg(row: seq<real>)
    requires AllNonNeg(row) && Sum(row) != 0.0
    ensures Nondecreasing(Cdf(row))
    ensures |row| > 0 ==> Cdf(row)[|row| - 1] == 1.0
    ensures forall i :: 0 <= i < |row| ==> 0.0 <= Cdf(row)[i] <= 1.0
  {
    CumSumOfNonNeg(row);
    SumNonNeg(row);
    var p, c, s := Cdf(row), CumSum(row), Sum(row);
    assert s > 0.0;
    forall i, j | 0 <= i <= j < |row| ensures p[i] <= p[j] {
      assert p[i] == c[i] / s && p[j] == c[j] / s;
      DivideMonotone(c[i], c[j], s);
    }
    forall i | 0 <= i < |row| ensures 0.0 <= p[i] <= 1.0 {
      assert p[i] == c[i] / s;
      assert 0.0 <= c[i] <= c[|row| - 1] == s;
      FractionBounds(c[i], s);
    }
    if |row| > 0 {
      assert p[|row| - 1] == c[|row| - 1] / s;
      assert c[|row| - 1] == s;
      SelfRatio(s);
    }
  }

  lemma {:induction false} DivideMonotone(a: real, b: real, s: real)
    requires s > 0.0 && a <= b
    ensures a / s <= b / s
  {
    assert b / s - a / s == (b - a) / s;
  }

  /**
   * The truncation loop of the constructor, started at `maxIndex = k`: while
   * the maximum of `pM[:k]` occurs more than once, cut at its first
   * occurrence. `Err` is numpy's failure to take the maximum of an empty slice.
   */
  function Truncate(pM: seq<real>, k: nat): Result<nat, ()>
    requires k <= |pM|
    decreases k
  {
    if k == 0 then Err(())
    else
      var m := Max(pM[..k]);
      if Count(pM[..k], m) > 1 then Truncate(pM, FirstIndex(pM[..k], m)) else Ok(k)
  }

  /**
   * A successful cut leaves a prefix whose maximum occurs once; if anything was
   * cut, every kept value lies strictly below the value at the cut.
   */
  lemma {:induction false} TruncateOk(pM: seq<real>, k: nat)
    requires k <= |pM|
    requires Truncate(pM, k).Ok?
    ensures 0 < Truncate(pM, k).value <= k
    ensures Count(pM[..Truncate(pM, k).value], Max(pM[..Truncate(pM, k).value])) == 1
    ensures Truncate(pM, k).value < k ==>
      forall j :: 0 <= j < Truncate(pM, k).value ==> pM[j] < pM[Truncate(pM, k).value]
    decreases k
  {
    var m := Max(pM[..k]);
    if Count(pM[..k], m) > 1 {
      var f := FirstIndex(pM[..k], m);
      TruncateOk(pM, f);
      var c := Truncate(pM, f).value;
      assert Truncate(pM, k).value == c;
      // every value before the first maximum is below the maximum
      forall j | 0 <= j < f ensures pM[j] < pM[f] {
        assert pM[..k][j] == pM[j] && pM[..k][f] == pM[f];
        assert pM[..k][j] <= m && pM[..k][j] != m;
      }
      if c < f {
        assert forall j :: 0 <= j < c ==> pM[j] < pM[c];
      }
    } else {
      CountPositive(pM[..k], m);
    }
  }

  /** A prefix whose maximum is unique is kept whole. */
  lemma {:induction false} TruncateUnique(pM: seq<real>, k: nat)
    requires 0 < k <= |pM|
    requires Count(pM[..k], Max(pM[..k])) == 1
    ensures Truncate(pM, k) == Ok(k)
  {
  }

  /** The loop fails only if the first value is repeated in the prefix it started from. */
  lemma {:induction false} TruncateErr(pM: seq<real>, k: nat)
    requires k <= |pM|
    requires Truncate(pM, k).Err?
    ensures k == 0 || Count(pM[..k], pM[0]) > 1
    decreases k
  {
    if k > 0 {
      var m := Max(pM[..k]);
      var f := FirstIndex(pM[..k], m);
      if f == 0 {
        assert pM[..k][0] == pM[0];
      } else {
        TruncateErr(pM, f);
        assert pM[..k][..f] == pM[..f];
        CountPrefix(pM[..k], f, pM[0]);
      }
    }
  }

  /** Loop form of the truncation (`while ... maxIndex = np.where(...)[0][0]`). */
  method TruncateRepeatedMaxima(pM: seq<real>) returns (r: Result<nat, ()>)
    ensures r == Truncate(pM, |pM|)
  {
    var k: nat := |pM|;
    while k > 0 && Count(pM[..k], Max(pM[..k])) > 1
      invariant k <= |pM|
      invariant Truncate(pM, k) == Truncate(pM, |pM|)
      decreases k
    {
      k := FirstIndex(pM[..k], Max(pM[..k]));
    }
    if k == 0 {
      r := Err(());
    } else {
      r := Ok(k);
    }
  }

  /** The degree of the mass splines: `splrep`'s default, which needs more points than the degree. */
  const SplineDegree: nat := 3

  /** What the constructor makes of one redshift row of the count grid. */
  datatype RowStatus =
    | ZeroRow               // the row sums to zero: pM is 0/0 and its spline is NaN
    | EmptyCut              // the truncation loop ran out of values
    | ShortCut(k: nat)      // splrep raises: only k <= SplineDegree points to fit
    | Cut(pM: seq<real>, k: nat) // spline through pM[:k], log10M[:k]

  /** The row statuses at which the row loop raises. */
  predicate Raises(s: RowStatus)
  {
    s.EmptyCut? || s.ShortCut?
  }

  function RowStatusOf(row: seq<real>): (s: RowStatus)
    ensures s.Cut? ==> |s.pM| == |row| && SplineDegree < s.k <= |row|
    ensures s.ShortCut? ==> s.k <= SplineDegree && s.k <= |row|
    ensures s.EmptyCut? ==> |row| == 0 || Sum(row) != 0.0
    ensures |row| <= SplineDegree ==> Raises(s)
  {
    if |row| == 0 then EmptyCut
    else if Sum(row) == 0.0 then
      if |row| <= SplineDegree then ShortCut(|row|) else ZeroRow
    else
      var p := Cdf(row);
      var t := Truncate(p, |p|);
      if t.Err? then EmptyCut
      else
        TruncateOk(p, |p|);
        if t.value <= SplineDegree then ShortCut(t.value) else Cut(p, t.value)
  }

  datatype SamplerFailure =
    | ZeroTotalCount
    | EmptyTruncation(row: nat)
    | TooFewPoints(row: nat)
    | ZeroRowCount(row: nat)

  /** The exception the row loop raises at row `i`. */
  function RowFailure(s: RowStatus, i: nat): (f: SamplerFailure)
    requires Raises(s)
    ensures f.EmptyTruncation? || f.TooFewPoints?
    ensures f.row == i
  {
    if s.EmptyCut? then EmptyTruncation(i) else TooFewPoints(i)
  }

  /** The splines the constructor prepares when `enableDrawSample` is set. */
  datatype Sampler =
    | Disabled
    | Ready(pz: seq<real>, rows: seq<RowStatus>) // spline through (pz, z); one per row
    | Failed(reason: SamplerFailure)             // the constructor raises or exits

  function FirstRaise(st: seq<RowStatus>): (k: nat)
    ensures k <= |st| && (k < |st| ==> Raises(st[k]))
    ensures forall j :: 0 <= j < k ==> !Raises(st[j])
  {
    if |st| == 0 || Raises(st[0]) then 0 else 1 + FirstRaise(st[1..])
  }

  function FirstZeroRow(st: seq<RowStatus>): (k: nat)
    ensures k <= |st| && (k < |st| ==> st[k].ZeroRow?)
    ensures forall j :: 0 <= j < k ==> !st[j].ZeroRow?
  {
    if |st| == 0 || st[0].ZeroRow? then 0 else 1 + FirstZeroRow(st[1..])
  }

  function Statuses(counts: seq<seq<real>>): (st: seq<RowStatus>)
    ensures |st| == |counts|
  {
    seq(|counts|, i requires 0 <= i < |counts| => RowStatusOf(counts[i]))
  }

  /** The sampler the constructor ends with, failures in the order the code meets them. */
  function SamplerFor(counts: seq<seq<real>>, total: real): Sampler
  {
    if total == 0.0 then Failed(ZeroTotalCount)
    else
      var st := Statuses(counts);
      var e := FirstRaise(st);
      if e < |st| then Failed(RowFailure(st[e], e))
      else
        var zr := FirstZeroRow(st);
        if zr < |st| then Failed(ZeroRowCount(zr))
        else Ready(seq(|counts|, i requires 0 <= i < |counts| => CumSum(RowSums(counts))[i] / total), st)
  }

  /** The sampler a survey over `areaDeg2` starts with: prepared from its first count grid when drawing is enabled. */
  function InitialSampler(lib: Library, cosmo: Cosmology, zMin: real, zMax: real, areaDeg2: real,
                          enableDrawSample: bool): Sampler
    requires WellFormed(lib) && areaDeg2 >= 0.0
  {
    if enableDrawSample then
      var counts := CountGrid(lib, cosmo, Edges(zMin, zMax), AreaSr(areaDeg2));
      SamplerFor(counts, SumAll(counts))
    else Disabled
  }

  /**
   * The sampler is ready exactly when the total is non-zero and every row gets
   * a cut of more than `SplineDegree` points.
   */
  lemma {:induction false} SamplerReadyIff(counts: seq<seq<real>>, total: real)
    ensures SamplerFor(counts, total).Ready? <==>
      total != 0.0 &&
      forall i :: 0 <= i < |counts| ==> RowStatusOf(counts[i]).Cut? && RowStatusOf(counts[i]).k > SplineDegree
  {
    var st := Statuses(counts);
    if total != 0.0 && forall i :: 0 <= i < |counts| ==> RowStatusOf(counts[i]).Cut? {
      assert forall i :: 0 <= i < |st| ==> st[i].Cut?;
      assert FirstRaise(st) == |st|;
      assert FirstZeroRow(st) == |st|;
    }
    if SamplerFor(counts, total).Ready? {
      assert FirstRaise(st) == |st| && FirstZeroRow(st) == |st|;
      forall i | 0 <= i < |counts| ensures RowStatusOf(counts[i]).Cut? {
        assert st[i] == RowStatusOf(counts[i]);
        assert !Raises(st[i]) && !st[i].ZeroRow?;
      }
    }
  }

  /**
   * A row whose distribution function reaches 1 at its third bin is cut to two
   * points, too few for a cubic spline: the set-up raises there.
   */
  lemma {:induction false} ShortCutRaises(a: real, b: real, c: real)
    requires a > 0.0 && b > 0.0 && c > 0.0
    ensures RowStatusOf([a, b, c, 0.0]) == ShortCut(2)
    ensures SamplerFor([[a, b, c, 0.0]], a + b + c) == Failed(TooFewPoints(0))
  {
    var row := [a, b, c, 0.0];
    var t := a + b + c;
    StepRowCdf(a, b, c);
    TruncateToTwo(a / t, (a + b) / t);
    assert Statuses([row]) == [ShortCut(2)];
  }

  /** The distribution function of the row [a, b, c, 0]. */
  lemma {:induction false} StepRowCdf(a: real, b: real, c: real)
    requires a > 0.0 && b > 0.0 && c > 0.0
    ensures Sum([a, b, c, 0.0]) == a + b + c
    ensures Cdf([a, b, c, 0.0]) == [a / (a + b + c), (a + b) / (a + b + c), 1.0, 1.0]
    ensures 0.0 < a / (a + b + c) < (a + b) / (a + b + c) < 1.0
  {
    var t := a + b + c;
    StepRowSums(a, b, c);
    var p := Cdf([a, b, c, 0.0]);
    SelfRatio(t);
    assert p[0] == a / t && p[1] == (a + b) / t && p[2] == 1.0 && p[3] == 1.0;
    assert (a + b) / t - a / t == b / t && b / t > 0.0;
    assert t / t - (a + b) / t == c / t && c / t > 0.0;
  }

  /** The total and the running sums of the row [a, b, c, 0]. */
  lemma {:induction false} StepRowSums(a: real, b: real, c: real)
    ensures Sum([a, b, c, 0.0]) == a + b + c
    ensures CumSum([a, b, c, 0.0]) == [a, a + b, a + b + c, a + b + c]
  {
    var row := [a, b, c, 0.0];
    assert row[..1] == [a] && row[..2] == [a, b] && row[..3] == [a, b, c];
    assert [a][..0] == [] && [a, b][..1] == [a] && [a, b, c][..2] == [a, b] && row[..4] == row;
    assert Sum(row[..1]) == a && Sum(row[..2]) == a + b && Sum(row[..3]) == a + b + c;
  }

  /** With 0 < x < y < 1 the truncation of [x, y, 1, 1] stops after two values. */
  lemma {:induction false} TruncateToTwo(x: real, y: real)
    requires 0.0 < x < y < 1.0
    ensures Truncate([x, y, 1.0, 1.0], 4) == Ok(2)
  {
    var p := [x, y, 1.0, 1.0];
    assert p[..4] == p && p[..3] == [x, y, 1.0] && p[..2] == [x, y] && p[..1] == [x] && p[..0] == [];
    assert p[..3][..2] == p[..2] && p[..2][..1] == p[..1];
    // the whole row: the maximum 1 occurs twice, first at position 2
    assert Max(p[..4]) == 1.0;
    assert [x][..0] == [] && [x, y][..1] == [x];
    assert Count([x], 1.0) == 0 && Count([x], y) == 0;
    assert Count(p[..2], 1.0) == 0;
    assert Count(p[..4], 1.0) == 2;
    assert FirstIndex(p[..4], 1.0) == 2;
    // the first two values: their maximum occurs once
    assert Max(p[..2]) == y;
    assert Count(p[..2], y) == 1;
  }

  /** For non-negative counts the redshift distribution function rises to exactly 1. */
  lemma {:induction false} SamplerRedshiftCdf(counts: seq<seq<real>>, total: real)
    requires GridNonNeg(counts) && |counts| > 0
    requires total == SumAll(counts)
    requires SamplerFor(counts, total).Ready?
    ensures Nondecreasing(SamplerFor(counts, total).pz)
    ensures SamplerFor(counts, total).pz[|counts| - 1] == 1.0
  {
    var s := SamplerFor(counts, total);
    GridNonNegSums(counts);
    SumAllIsSumOfRowSums(counts);
    CumSumOfNonNeg(RowSums(counts));
    var c := CumSum(RowSums(counts));
    assert total > 0.0;
    forall i, j | 0 <= i <= j < |counts| ensures s.pz[i] <= s.pz[j] {
      assert s.pz[i] == c[i] / total && s.pz[j] == c[j] / total;
      DivideMonotone(c[i], c[j], total);
    }
    assert s.pz[|counts| - 1] == c[|counts| - 1] / total;
    assert c[|counts| - 1] == total;
    SelfRatio(total);
  }

  /** In a ready sampler every row keeps a prefix whose largest value occurs once. */
  lemma {:induction false} SamplerRowsCut(counts: seq<seq<real>>, total: real)
    requires SamplerFor(counts, total).Ready?
    ensures forall i :: 0 <= i < |counts| ==>
      var r := SamplerFor(counts, total).rows[i];
      r.Cut? && r.pM == Cdf(counts[i]) && Count(r.pM[..r.k], Max(r.pM[..r.k])) == 1
  {
    var st := Statuses(counts);
    forall i | 0 <= i < |counts|
      ensures st[i].Cut? && st[i].pM == Cdf(counts[i]) && Count(st[i].pM[..st[i].k], Max(st[i].pM[..st[i].k])) == 1
    {
      assert !Raises(st[i]) && !st[i].ZeroRow?;
      var p := Cdf(counts[i]);
      TruncateOk(p, |p|);
    }
  }

  /** A ready sampler has one distribution function per row, over the row's mass bins. */
  lemma {:induction false} SamplerShape(counts: seq<seq<real>>, total: real)
    requires SamplerFor(counts, total).Ready?
    ensures |SamplerFor(counts, total).pz| == |counts| && |SamplerFor(counts, total).rows| == |counts|
    ensures forall i :: 0 <= i < |counts| ==>
      var r := SamplerFor(counts, total).rows[i];
      r.Cut? && |r.pM| == |counts[i]| && 0 < r.k <= |counts[i]|
  {
    SamplerRowsCut(counts, total);
  }

  /** The sampler of a grid with rows of `nm` values fits that grid. */
  lemma {:induction false} SamplerForFits(counts: seq<seq<real>>, total: real, nm: nat)
    requires forall i :: 0 <= i < |counts| ==> |counts[i]| == nm
    ensures SamplerFits(SamplerFor(counts, total), |counts|, nm)
  {
    if SamplerFor(counts, total).Ready? {
      SamplerShape(counts, total);
    }
  }

  /** One row of the loop over the redshift rows: its mass distribution function and truncation. */
  method CutRow(row: seq<real>) returns (s: RowStatus)
    ensures s == RowStatusOf(row)
  {
    var mSum := Sum(row);
    if |row| == 0 {
      return EmptyCut;
    }
    if mSum == 0.0 {
      if |row| <= SplineDegree {
        return ShortCut(|row|);
      }
      return ZeroRow;
    }
    var pM := Cdf(row);
    var cut := TruncateRepeatedMaxima(pM);
    if cut.Err? {
      return EmptyCut;
    }
    if cut.value <= SplineDegree {
      return ShortCut(cut.value);
    }
    s := Cut(pM, cut.value);
  }

  /**
   * The loop over the redshift rows: each row's mass distribution function,
   * its truncation and its spline fit; stops at the first row that raises.
   */
  method CutRows(counts: seq<seq<real>>) returns (r: Result<seq<RowStatus>, SamplerFailure>)
    ensures r.Ok? ==> r.value == Statuses(counts) && FirstRaise(Statuses(counts)) == |counts|
    ensures r.Err? ==>
      var k := FirstRaise(Statuses(counts));
      k < |counts| && r.error == RowFailure(Statuses(counts)[k], k)
  {
    ghost var st := Statuses(counts);
    var rows: seq<RowStatus> := [];
    var i := 0;
    while i < |counts|
      invariant 0 <= i <= |counts|
      invariant rows == st[..i]
      invariant forall j :: 0 <= j < i ==> !Raises(st[j])
    {
      var s := CutRow(counts[i]);
      assert s == st[i];
      if s.EmptyCut? || s.ShortCut? {
        ghost var k := FirstRaise(st);
        assert !(k < i) && !(k > i);
        return Err(RowFailure(s, i));
      }
      rows := rows + [s];
      i := i + 1;
    }
    assert rows == st;
    ghost var k := FirstRaise(st);
    assert !(k < |st|);
    return Ok(rows);
  }

  /** The check of every row's spline coefficients for NaN: the first row that sums to zero. */
  method FirstNaNRow(rows: seq<RowStatus>) returns (k: nat)
    ensures k == FirstZeroRow(rows)
  {
    k := 0;
    while k < |rows| && !rows[k].ZeroRow?
      invariant k <= |rows|
      invariant forall j :: 0 <= j < k ==> !rows[j].ZeroRow?
    {
      k := k + 1;
    }
  }

  /**
   * The spline preparation of the constructor: the redshift distribution
   * function, the rows, then the NaN check.
   */
  method PrepareSampler(counts: seq<seq<real>>, total: real) returns (s: Sampler)
    ensures s == SamplerFor(counts, total)
  {
    if total == 0.0 {
      return Failed(ZeroTotalCount);
    }
    var zSum := RowSums(counts);
    var cz := CumSum(zSum);
    var pz := seq(|counts|, i requires 0 <= i < |counts| => cz[i] / total);
    var rows := CutRows(counts);
    if rows.Err? {
      return Failed(rows.error);
    }
    var bad := FirstNaNRow(rows.value);
    if bad < |rows.value| {
      return Failed(ZeroRowCount(bad));
    }
    s := Ready(pz, rows.value);
  }

  // ------------------------------------------------- detection probabilities

  function TileDetP(sf: SurveySelFn, st: Scaling, sr: ScalingRelation, logM: seq<real>, z: seq<real>,
                    t: nat, i: nat, j: nat): real
    requires SelFnOk(sf) && t < |sf.ycLimits| && i < |z| && j < |logM|
  {
    st.normSF(sf.ycLimits[t], st.y0FromLogM500(logM[j], z[i], Some(sr)), sf.ycLimits[t] / sf.SNRCut)
  }

  function AverageDetP(sf: SurveySelFn, st: Scaling, sr: ScalingRelation, logM: seq<real>, z: seq<real>,
                       i: nat, j: nat): real
    requires SelFnOk(sf) && i < |z| && j < |logM|
  {
    var lim := sf.ycLimitAtRedshift(z[i]);
    st.normSF(lim, st.y0FromLogM500(logM[j], z[i], Some(sr)), lim / sf.SNRCut)
  }

  lemma {:induction false} NormSFBounded(st: Scaling, x: real, loc: real, scale: real)
    requires ScalingOk(st)
    ensures 0.0 <= st.normSF(x, loc, scale) <= 1.0
  {
  }

  /** Detection probabilities are probabilities. */
  lemma {:induction false} DetPInUnitInterval(sf: SurveySelFn, st: Scaling, sr: ScalingRelation, logM: seq<real>, z: seq<real>)
    requires SelFnOk(sf) && ScalingOk(st)
    ensures forall t, i, j :: 0 <= t < |sf.ycLimits| && 0 <= i < |z| && 0 <= j < |logM| ==>
      0.0 <= TileDetP(sf, st, sr, logM, z, t, i, j) <= 1.0
    ensures forall i, j :: 0 <= i < |z| && 0 <= j < |logM| ==>
      0.0 <= AverageDetP(sf, st, sr, logM, z, i, j) <= 1.0
  {
    forall t, i, j | 0 <= t < |sf.ycLimits| && 0 <= i < |z| && 0 <= j < |logM|
      ensures 0.0 <= TileDetP(sf, st, sr, logM, z, t, i, j) <= 1.0
    {
      var yc := st.y0FromLogM500(logM[j], z[i], Some(sr));
      assert 0.0 <= st.normSF(sf.ycLimits[t], yc, sf.ycLimits[t] / sf.SNRCut) <= 1.0;
    }
    forall i, j | 0 <= i < |z| && 0 <= j < |logM|
      ensures 0.0 <= AverageDetP(sf, st, sr, logM, z, i, j) <= 1.0
    {
      var lim := sf.ycLimitAtRedshift(z[i]);
      NormSFBounded(st, lim, st.y0FromLogM500(logM[j], z[i], Some(sr)), lim / sf.SNRCut);
    }
  }

  // --------------------------------------------------- expected cluster counts

  /** Boolean-mask indexing `s[mask]`. */
  function Select<T>(s: seq<T>, mask: seq<bool>): (r: seq<T>)
    requires |mask| == |s|
    ensures |r| <= |s|
  {
    if |s| == 0 then []
    else Select(s[..|s| - 1], mask[..|s| - 1]) + (if mask[|s| - 1] then [s[|s| - 1]] else [])
  }

  /** `grid[:, mMask][zMask]`. */
  function SubGrid(g: seq<seq<real>>, zMask: seq<bool>, mMask: seq<bool>): seq<seq<real>>
    requires |zMask| == |g|
    requires forall i :: 0 <= i < |g| ==> |g[i]| == |mMask|
  {
    Select(seq(|g|, i requires 0 <= i < |g| => Select(g[i], mMask)), zMask)
  }

  function ZMask(z: seq<real>, zMin: real, zMax: real): (m: seq<bool>)
    ensures |m| == |z|
  {
    seq(|z|, i requires 0 <= i < |z| => zMin < z[i] && z[i] < zMax)
  }

  function MMask(masses: seq<real>, m500Limit: real): (m: seq<bool>)
    ensures |m| == |masses|
  {
    seq(|masses|, j requires 0 <= j < |masses| => masses[j] > m500Limit * MassUnit)
  }

  predicate AllTrue(m: seq<bool>)
  {
    forall i :: 0 <= i < |m| ==> m[i]
  }

  lemma {:induction false} SelectAll<T>(s: seq<T>, mask: seq<bool>)
    requires |mask| == |s| && AllTrue(mask)
    ensures Select(s, mask) == s
  {
    if |s| > 0 {
      SelectAll(s[..|s| - 1], mask[..|s| - 1]);
    }
  }

  /** Fewer selected non-negative values never sum to more. */
  lemma {:induction false} SelectSumMonotone(s: seq<real>, small: seq<bool>, large: seq<bool>)
    requires |small| == |s| && |large| == |s|
    requires AllNonNeg(s)
    requires forall i :: 0 <= i < |s| ==> small[i] ==> large[i]
    ensures Sum(Select(s, small)) <= Sum(Select(s, large))
  {
    if |s| > 0 {
      var n := |s| - 1;
      SelectSumMonotone(s[..n], small[..n], large[..n]);
      SumConcat(Select(s[..n], small[..n]), if small[n] then [s[n]] else []);
      SumConcat(Select(s[..n], large[..n]), if large[n] then [s[n]] else []);
    }
  }

  lemma {:induction false} SelectNonNeg(s: seq<real>, mask: seq<bool>)
    requires |mask| == |s| && AllNonNeg(s)
    ensures AllNonNeg(Select(s, mask))
  {
    if |s| > 0 {
      SelectNonNeg(s[..|s| - 1], mask[..|s| - 1]);
    }
  }

  lemma {:induction false} SelectZero(s: seq<real>, mask: seq<bool>)
    requires |mask| == |s| && AllZero(s)
    ensures AllZero(Select(s, mask))
  {
    if |s| > 0 {
      SelectZero(s[..|s| - 1], mask[..|s| - 1]);
    }
  }

  /** The weighted grid `calcNumClustersExpected` sums. */
  function Weighted(applySelFn: bool, useSurveyAverage: bool, counts: seq<seq<real>>, sel: Option<SelFnState>)
    : (r: Result<seq<seq<real>>, QueryError>)
    ensures r.Ok? ==> |r.value| == |counts| && forall i :: 0 <= i < |counts| ==> |r.value[i]| == |counts[i]|
    ensures !applySelFn ==> r == Ok(counts)
    ensures applySelFn && sel.None? ==> r == Err(NoSelFn)
  {
    if !applySelFn then Ok(counts)
    else if sel.None? then Err(NoSelFn)
    else if useSurveyAverage then
      if |sel.value.surveyAverage| != |counts| then Err(ShapeMismatch)
      else Ok(seq(|counts|, i requires 0 <= i < |counts| =>
        seq(|counts[i]|, j requires 0 <= j < |counts[i]| =>
          if j < |sel.value.surveyAverage[i]| then sel.value.surveyAverage[i][j] * counts[i][j] else 0.0)))
    else if |sel.value.completeness| == 0 then Err(NoTiles)
    else Ok(seq(|counts|, i requires 0 <= i < |counts| =>
      seq(|counts[i]|, j requires 0 <= j < |counts[i]| => TileSum(sel.value, counts, i, j))))
  }

  /** `sum_t M500Completeness[t] * clusterCount * fracSurveyArea[t]` at one cell. */
  function TileSum(sel: SelFnState, counts: seq<seq<real>>, i: nat, j: nat): real
    requires i < |counts| && j < |counts[i]|
  {
    Sum(seq(|sel.completeness|, t requires 0 <= t < |sel.completeness| =>
      if i < |sel.completeness[t]| && j < |sel.completeness[t][i]| && t < |sel.sf.fracSurveyArea|
      then sel.completeness[t][i][j] * counts[i][j] * sel.sf.fracSurveyArea[t] else 0.0))
  }

  datatype QueryError = NoSelFn | NoTiles | ShapeMismatch

  /** The masked total returned by `calcNumClustersExpected`. */
  function ExpectedCount(g: seq<seq<real>>, z: seq<real>, masses: seq<real>,
                         m500Limit: real, zMin: real, zMax: real): real
    requires |z| == |g|
    requires forall i :: 0 <= i < |g| ==> |g[i]| == |masses|
  {
    SumAll(SubGrid(g, ZMask(z, zMin, zMax), MMask(masses, m500Limit)))
  }

  /** With every shell and mass bin inside the limits the expected count is the grid total. */
  lemma {:induction false} ExpectedCountAll(g: seq<seq<real>>, z: seq<real>, masses: seq<real>,
                         m500Limit: real, zMin: real, zMax: real)
    requires |z| == |g|
    requires forall i :: 0 <= i < |g| ==> |g[i]| == |masses|
    requires forall i :: 0 <= i < |z| ==> zMin < z[i] < zMax
    requires forall j :: 0 <= j < |masses| ==> masses[j] > m500Limit * MassUnit
    ensures ExpectedCount(g, z, masses, m500Limit, zMin, zMax) == SumAll(g)
  {
    var mm := MMask(masses, m500Limit);
    var rows := seq(|g|, i requires 0 <= i < |g| => Select(g[i], mm));
    forall i | 0 <= i < |g| ensures rows[i] == g[i] {
      SelectAll(g[i], mm);
    }
    assert rows == g;
    SelectAll(rows, ZMask(z, zMin, zMax));
  }

  /** For non-negative counts, raising the mass limit never raises the expected count. */
  lemma {:induction false} ExpectedCountMonotone(g: seq<seq<real>>, z: seq<real>, masses: seq<real>,
                              lo: real, hi: real, zMin: real, zMax: real)
    requires |z| == |g|
    requires forall i :: 0 <= i < |g| ==> |g[i]| == |masses|
    requires GridNonNeg(g)
    requires lo <= hi
    ensures ExpectedCount(g, z, masses, hi, zMin, zMax) <= ExpectedCount(g, z, masses, lo, zMin, zMax)
  {
    var zm := ZMask(z, zMin, zMax);
    var mLo, mHi := MMask(masses, lo), MMask(masses, hi);
    var rowsLo := seq(|g|, i requires 0 <= i < |g| => Select(g[i], mLo));
    var rowsHi := seq(|g|, i requires 0 <= i < |g| => Select(g[i], mHi));
    forall i | 0 <= i < |g| ensures Sum(rowsHi[i]) <= Sum(rowsLo[i]) {
      SelectSumMonotone(g[i], mHi, mLo);
    }
    SelectedRowSums(rowsHi, rowsLo, zm);
  }

  /** Keeping the same rows of two grids whose row sums compare keeps the comparison of totals. */
  lemma {:induction false} SelectedRowSums(a: seq<seq<real>>, b: seq<seq<real>>, mask: seq<bool>)
    requires |a| == |b| == |mask|
    requires forall i :: 0 <= i < |a| ==> Sum(a[i]) <= Sum(b[i])
    ensures SumAll(Select(a, mask)) <= SumAll(Select(b, mask))
  {
    if |a| > 0 {
      var n := |a| - 1;
      SelectedRowSums(a[..n], b[..n], mask[..n]);
      var sa, sb := Select(a[..n], mask[..n]), Select(b[..n], mask[..n]);
      if mask[n] {
        assert Select(a, mask) == sa + [a[n]];
        assert Select(b, mask) == sb + [b[n]];
        assert (sa + [a[n]])[..|sa|] == sa;
        assert (sb + [b[n]])[..|sb|] == sb;
        assert Flatten(sa + [a[n]]) == Flatten(sa) + a[n];
        assert Flatten(sb + [b[n]]) == Flatten(sb) + b[n];
        SumConcat(Flatten(sa), a[n]);
        SumConcat(Flatten(sb), b[n]);
      } else {
        assert Select(a, mask) == sa + [] == sa;
        assert Select(b, mask) == sb + [] == sb;
      }
    }
  }

  /** A grid of zeros gives an expected count of zero, whatever the limits. */
  lemma {:induction false} ExpectedCountZero(g: seq<seq<real>>, z: seq<real>, masses: seq<real>,
                          m500Limit: real, zMin: real, zMax: real)
    requires |z| == |g|
    requires forall i :: 0 <= i < |g| ==> |g[i]| == |masses|
    requires forall i :: 0 <= i < |g| ==> AllZero(g[i])
    ensures ExpectedCount(g, z, masses, m500Limit, zMin, zMax) == 0.0
  {
    var zm, mm := ZMask(z, zMin, zMax), MMask(masses, m500Limit);
    var rows := seq(|g|, i requires 0 <= i < |g| => Select(g[i], mm));
    forall i | 0 <= i < |g| ensures AllZero(rows[i]) {
      SelectZero(g[i], mm);
    }
    SelectMembers(rows, zm);
    ZeroRowsSumZero(Select(rows, zm));
  }

  /** Every element `s[mask]` keeps is an element of `s`. */
  lemma {:induction false} SelectMembers<T>(s: seq<T>, mask: seq<bool>)
    requires |mask| == |s|
    ensures forall k :: 0 <= k < |Select(s, mask)| ==> Select(s, mask)[k] in s
  {
    if |s| > 0 {
      var n := |s| - 1;
      SelectMembers(s[..n], mask[..n]);
      assert forall x :: x in s[..n] ==> x in s;
    }
  }

  lemma {:induction false} ZeroRowsSumZero(g: seq<seq<real>>)
    requires forall r :: r in g ==> AllZero(r)
    ensures SumAll(g) == 0.0
  {
    if |g| > 0 {
      var n := |g| - 1;
      assert forall r :: r in g[..n] ==> r in g;
      ZeroRowsSumZero(g[..n]);
      assert g[n] in g;
      SumZero(g[n]);
      SumConcat(Flatten(g[..n]), g[n]);
    }
  }

  /**
   * With an all-zero completeness grid the selection-weighted expected count is
   * zero on both the survey-average and the per-tile branch.
   */
  lemma {:induction false} WeightedZeroCompleteness(useSurveyAverage: bool, counts: seq<seq<real>>, sel: SelFnState)
    requires forall i :: 0 <= i < |sel.surveyAverage| ==> AllZero(sel.surveyAverage[i])
    requires forall t, i :: 0 <= t < |sel.completeness| && 0 <= i < |sel.completeness[t]| ==>
      AllZero(sel.completeness[t][i])
    requires Weighted(true, useSurveyAverage, counts, Some(sel)).Ok?
    ensures forall i :: 0 <= i < |counts| ==> AllZero(Weighted(true, useSurveyAverage, counts, Some(sel)).value[i])
  {
    var w := Weighted(true, useSurveyAverage, counts, Some(sel)).value;
    if useSurveyAverage {
      forall i, j | 0 <= i < |counts| && 0 <= j < |counts[i]| ensures w[i][j] == 0.0 {
        if j < |sel.surveyAverage[i]| {
          assert sel.surveyAverage[i][j] == 0.0;
        }
      }
    } else {
      forall i, j | 0 <= i < |counts| && 0 <= j < |counts[i]| ensures w[i][j] == 0.0 {
        var terms := seq(|sel.completeness|, t requires 0 <= t < |sel.completeness| =>
          if i < |sel.completeness[t]| && j < |sel.completeness[t][i]| && t < |sel.sf.fracSurveyArea|
          then sel.completeness[t][i][j] * counts[i][j] * sel.sf.fracSurveyArea[t] else 0.0);
        assert AllZero(terms);
        SumZero(terms);
      }
    }
  }

  /** With an all-ones survey-average completeness the weighted grid is the count grid. */
  lemma {:induction false} WeightedFullCompleteness(counts: seq<seq<real>>, sel: SelFnState)
    requires |sel.surveyAverage| == |counts|
    requires forall i :: 0 <= i < |counts| ==> |sel.surveyAverage[i]| == |counts[i]|
    requires forall i, j :: 0 <= i < |counts| && 0 <= j < |counts[i]| ==> sel.surveyAverage[i][j] == 1.0
    ensures Weighted(true, true, counts, Some(sel)) == Ok(counts)
  {
    var w := Weighted(true, true, counts, Some(sel)).value;
    forall i | 0 <= i < |counts| ensures w[i] == counts[i] {
      assert forall j :: 0 <= j < |counts[i]| ==> w[i][j] == 1.0 * counts[i][j] == counts[i][j];
    }
    assert w == counts;
  }

  // ------------------------------------------------------------ mock drawing

  datatype TrialDraws = TrialDraws(zRoll: real, mRoll: real, pRoll: real, gauss: real)

  datatype MockCluster = MockCluster(
    name: string, trial: nat, redshift: real, redshiftErr: real,
    trueM500: real, trueFixedYc: real, fixedSNR: real, fixedYc: real, errFixedYc: real,
    mass: MassEstimate)

  datatype DrawError = SelFnMissing | SamplerUnavailable | NoiseUndefined

  /** Everything one draw reads from the survey. */
  datatype DrawContext = DrawContext(
    lib: Library, stats: Scaling, cosmo: Cosmology, scaling: ScalingRelation,
    z: seq<real>, log10M: seq<real>, pz: seq<real>, rows: seq<RowStatus>,
    detP: seq<seq<real>>, y0Noise: real)

  predicate ContextOk(cx: DrawContext)
  {
    && |cx.z| > 0 && |cx.log10M| > 0
    && |cx.rows| == |cx.z| && |cx.detP| == |cx.z|
    && (forall i :: 0 <= i < |cx.rows| ==>
          (cx.rows[i].Cut? && cx.rows[i].k <= |cx.log10M| && cx.rows[i].k <= |cx.rows[i].pM|))
    && (forall i :: 0 <= i < |cx.detP| ==> |cx.detP[i]| == |cx.log10M|)
    && cx.y0Noise != 0.0
  }

  /** `np.where(abs(grid - v) == abs(grid - v).min())[0][0]`. */
  function NearestIndex(grid: seq<real>, v: real): (k: nat)
    requires |grid| > 0
    ensures k < |grid|
    ensures forall j :: 0 <= j < |grid| ==> Abs(grid[k] - v) <= Abs(grid[j] - v)
    ensures forall j :: 0 <= j < k ==> Abs(grid[j] - v) > Abs(grid[k] - v)
  {
    if |grid| == 1 then 0
    else
      var k := NearestIndex(grid[..|grid| - 1], v);
      assert forall j :: 0 <= j < |grid| - 1 ==> grid[..|grid| - 1][j] == grid[j];
      if Abs(grid[|grid| - 1] - v) < Abs(grid[k] - v) then |grid| - 1 else k
  }

  /** Decimal digits of a natural number (`'%d' % n`). */
  function DecimalString(n: nat): (s: string)
    ensures |s| > 0
    ensures forall i :: 0 <= i < |s| ==> '0' <= s[i] <= '9'
  {
    var d := [(('0' as int) + n % 10) as char];
    if n < 10 then d else DecimalString(n / 10) + d
  }

  /** The redshift drawn by the roll `d.zRoll` through the spline of (pz, z). */
  function DrawnRedshift(cx: DrawContext, d: TrialDraws): real
  {
    cx.lib.splev(cx.pz, cx.z, d.zRoll)
  }

  /** The log10 mass drawn by `d.mRoll` through the cut spline of the nearest redshift row. */
  function DrawnLog10M(cx: DrawContext, d: TrialDraws): real
    requires ContextOk(cx)
  {
    var row := cx.rows[NearestIndex(cx.z, DrawnRedshift(cx, d))];
    cx.lib.splev(row.pM[..row.k], cx.log10M[..row.k], d.mRoll)
  }

  /** The survey-averaged detection probability of the grid cell nearest the draw. */
  function DetectionProbability(cx: DrawContext, d: TrialDraws): real
    requires ContextOk(cx)
  {
    cx.detP[NearestIndex(cx.z, DrawnRedshift(cx, d))][NearestIndex(cx.log10M, DrawnLog10M(cx, d))]
  }

  /** The catalogue row of an accepted trial i (named MOCK-CL<i + 1>). */
  function MockClusterOf(cx: DrawContext, d: TrialDraws, i: nat): (c: MockCluster)
    requires ContextOk(cx)
    ensures c.trial == i + 1
  {
    var zDraw := DrawnRedshift(cx, d);
    var mDraw := DrawnLog10M(cx, d);
    var trueY0 := cx.stats.y0FromLogM500(mDraw, zDraw, None);
    var measured := trueY0 + cx.y0Noise * d.gauss;
    MockCluster(
      "MOCK-CL" + DecimalString(i + 1), i + 1, zDraw, 0.0,
      cx.stats.pow10(mDraw) / MassUnit, trueY0 / 0.0001, measured / cx.y0Noise,
      measured / 0.0001, cx.y0Noise / 0.0001,
      cx.stats.calcM500Fromy0(measured, cx.y0Noise, zDraw, cx.scaling, cx.cosmo))
  }

  /** Trial i keeps its cluster exactly when the third roll is below the detection probability. */
  function TrialOutcome(cx: DrawContext, d: TrialDraws, i: nat): Option<MockCluster>
    requires ContextOk(cx)
  {
    if d.pRoll < DetectionProbability(cx, d) then Some(MockClusterOf(cx, d, i)) else None
  }

  /** The outcomes of the trials, trial i drawn from the rolls `rng(i)`. */
  function Outcomes(cx: DrawContext, rng: nat -> TrialDraws): nat -> Option<MockCluster>
    requires ContextOk(cx)
  {
    (i: nat) => TrialOutcome(cx, rng(i), i)
  }

  /** The clusters kept by the first n trials, in trial order. */
  function Kept(outcome: nat -> Option<MockCluster>, n: nat): seq<MockCluster>
  {
    if n == 0 then []
    else Kept(outcome, n - 1) + (if outcome(n - 1).Some? then [outcome(n - 1).value] else [])
  }

  /** Every kept entry is the outcome of its own trial, numbered from 1 to n. */
  lemma {:induction false} KeptEntriesAreTrials(outcome: nat -> Option<MockCluster>, n: nat)
    requires forall i: nat :: outcome(i).Some? ==> outcome(i).value.trial == i + 1
    ensures |Kept(outcome, n)| <= n
    ensures forall c :: c in Kept(outcome, n) ==> 1 <= c.trial <= n && outcome(c.trial - 1) == Some(c)
  {
    if n > 0 {
      KeptEntriesAreTrials(outcome, n - 1);
    }
  }

  /** Kept entries appear in increasing trial order. */
  lemma {:induction false} KeptOrdered(outcome: nat -> Option<MockCluster>, n: nat)
    requires forall i: nat :: outcome(i).Some? ==> outcome(i).value.trial == i + 1
    ensures forall k, l :: 0 <= k < l < |Kept(outcome, n)| ==> Kept(outcome, n)[k].trial < Kept(outcome, n)[l].trial
  {
    if n > 0 {
      KeptOrdered(outcome, n - 1);
      KeptEntriesAreTrials(outcome, n - 1);
      var prev := Kept(outcome, n - 1);
      forall k | 0 <= k < |prev| ensures prev[k].trial < n {
        assert prev[k] in prev;
      }
    }
  }

  /** Every trial with an outcome is kept. */
  lemma {:induction false} KeptComplete(outcome: nat -> Option<MockCluster>, n: nat)
    ensures forall i :: 0 <= i < n && outcome(i).Some? ==> outcome(i).value in Kept(outcome, n)
  {
    if n > 0 {
      KeptComplete(outcome, n - 1);
    }
  }

  /** `range(int(numClusters))`. */
  function Trials(numClusters: real): nat
  {
    var t := TruncToInt(numClusters);
    if t < 0 then 0 else t
  }

  function Mean(s: seq<real>): real
    requires |s| > 0
  {
    Sum(s) / (|s| as real)
  }

  // ------------------------------------------------------ filling the grids

  /** One pass of the loop of `_doClusterCount`: the shell's number density and volume. */
  method CountShell(lib: Library, c: Cosmology, e: seq<real>, areaSr: real, i: nat)
    returns (n: seq<real>, shellVolumeMpc3: real)
    requires WellFormed(lib) && i + 1 < |e|
    ensures n == ShellDensity(lib, c, e, i)
    ensures shellVolumeMpc3 == ShellVolume(lib, c, e, areaSr, i)
  {
    var zShellMin := e[i];
    var zShellMax := e[i + 1];
    var zShellMid := (zShellMax + zShellMin) / 2.0;
    n := AbsSeq(Gradient(lib.numberAbove(c, zShellMid)));
    shellVolumeMpc3 := lib.comovingVolume(c, zShellMax) - lib.comovingVolume(c, zShellMin);
    shellVolumeMpc3 := shellVolumeMpc3 * (areaSr / (4.0 * Pi));
  }

  /** The loop of `_doClusterCount`, shell by shell. */
  method CountShells(lib: Library, c: Cosmology, e: seq<real>, areaSr: real)
    returns (numberDensity: seq<seq<real>>, clusterCount: seq<seq<real>>, totalVolumeMpc3: real)
    requires WellFormed(lib) && |e| >= 1
    ensures numberDensity == DensityGrid(lib, c, e)
    ensures clusterCount == CountGrid(lib, c, e, areaSr)
    ensures totalVolumeMpc3 == Sum(ShellVolumes(lib, c, e, areaSr))
  {
    numberDensity, clusterCount, totalVolumeMpc3 := [], [], 0.0;
    ghost var dens := DensityGrid(lib, c, e);
    ghost var counts := CountGrid(lib, c, e, areaSr);
    ghost var vols := ShellVolumes(lib, c, e, areaSr);
    var i := 0;
    while i < |e| - 1
      invariant 0 <= i <= |e| - 1
      invariant numberDensity == dens[..i]
      invariant clusterCount == counts[..i]
      invariant totalVolumeMpc3 == Sum(vols[..i])
    {
      var n, shellVolumeMpc3 := CountShell(lib, c, e, areaSr, i);
      assert n == dens[i] && shellVolumeMpc3 == vols[i];
      assert Scale(n, shellVolumeMpc3) == counts[i];
      assert vols[..i + 1] == vols[..i] + [vols[i]];
      assert dens[..i + 1] == dens[..i] + [dens[i]];
      assert counts[..i + 1] == counts[..i] + [counts[i]];
      numberDensity := numberDensity + [n];
      totalVolumeMpc3 := totalVolumeMpc3 + shellVolumeMpc3;
      clusterCount := clusterCount + [Scale(n, shellVolumeMpc3)];
      i := i + 1;
    }
    assert vols[..i] == vols && dens[..i] == dens && counts[..i] == counts;
  }

  function CompletenessCube(sf: SurveySelFn, st: Scaling, sr: ScalingRelation, logM: seq<real>, z: seq<real>)
    : (cube: seq<seq<seq<real>>>)
    requires SelFnOk(sf)
    ensures |cube| == |sf.ycLimits|
    ensures forall t :: 0 <= t < |cube| ==> |cube[t]| == |z| && forall i :: 0 <= i < |z| ==> |cube[t][i]| == |logM|
  {
    seq(|sf.ycLimits|, t requires 0 <= t < |sf.ycLimits| =>
      seq(|z|, i requires 0 <= i < |z| =>
        seq(|logM|, j requires 0 <= j < |logM| => TileDetP(sf, st, sr, logM, z, t, i, j))))
  }

  function SurveyAverageGrid(sf: SurveySelFn, st: Scaling, sr: ScalingRelation, logM: seq<real>, z: seq<real>)
    : (g: seq<seq<real>>)
    requires SelFnOk(sf)
    ensures |g| == |z| && forall i :: 0 <= i < |z| ==> |g[i]| == |logM|
  {
    seq(|z|, i requires 0 <= i < |z| =>
      seq(|logM|, j requires 0 <= j < |logM| => AverageDetP(sf, st, sr, logM, z, i, j)))
  }

  /** The first loop of `addSelFn`: `M500Completeness[:, i, j]` for every tile at once. */
  method TileCompleteness(sf: SurveySelFn, st: Scaling, sr: ScalingRelation, logM: seq<real>, z: seq<real>)
    returns (completeness: seq<seq<seq<real>>>)
    requires SelFnOk(sf)
    ensures completeness == CompletenessCube(sf, st, sr, logM, z)
  {
    var nT, nZ, nM := |sf.ycLimits|, |z|, |logM|;
    var cube := new real[nT, nZ, nM];
    var i := 0;
    while i < nZ
      invariant 0 <= i <= nZ
      invariant forall t, i', j :: 0 <= t < nT && 0 <= i' < i && 0 <= j < nM ==>
        cube[t, i', j] == TileDetP(sf, st, sr, logM, z, t, i', j)
    {
      var j := 0;
      while j < nM
        invariant 0 <= j <= nM
        invariant forall t, i', j' :: 0 <= t < nT && 0 <= i' < i && 0 <= j' < nM ==>
          cube[t, i', j'] == TileDetP(sf, st, sr, logM, z, t, i', j')
        invariant forall t, j' :: 0 <= t < nT && 0 <= j' < j ==>
          cube[t, i, j'] == TileDetP(sf, st, sr, logM, z, t, i, j')
      {
        var yc := st.y0FromLogM500(logM[j], z[i], Some(sr));
        forall t | 0 <= t < nT {
          cube[t, i, j] := st.normSF(sf.ycLimits[t], yc, sf.ycLimits[t] / sf.SNRCut);
        }
        j := j + 1;
      }
      i := i + 1;
    }
    completeness := seq(nT, t requires 0 <= t < nT reads cube =>
      seq(nZ, i requires 0 <= i < nZ reads cube =>
        seq(nM, j requires 0 <= j < nM reads cube => cube[t, i, j])));
    ghost var spec := CompletenessCube(sf, st, sr, logM, z);
    forall t | 0 <= t < nT ensures completeness[t] == spec[t] {
      forall i | 0 <= i < nZ ensures completeness[t][i] == spec[t][i] {
        assert forall j :: 0 <= j < nM ==> completeness[t][i][j] == spec[t][i][j];
      }
    }
  }

  /** The second loop of `addSelFn`: the survey-averaged detection probability per cell. */
  method SurveyAverageCompleteness(sf: SurveySelFn, st: Scaling, sr: ScalingRelation, logM: seq<real>, z: seq<real>)
    returns (surveyAverage: seq<seq<real>>)
    requires SelFnOk(sf)
    ensures surveyAverage == SurveyAverageGrid(sf, st, sr, logM, z)
  {
    var nZ, nM := |z|, |logM|;
    var average := new real[nZ, nM];
    var i := 0;
    while i < nZ
      invariant 0 <= i <= nZ
      invariant forall i', j :: 0 <= i' < i && 0 <= j < nM ==>
        average[i', j] == AverageDetP(sf, st, sr, logM, z, i', j)
    {
      var ycLimitAtClusterRedshift := sf.ycLimitAtRedshift(z[i]);
      var j := 0;
      while j < nM
        invariant 0 <= j <= nM
        invariant forall i', j' :: 0 <= i' < i && 0 <= j' < nM ==>
          average[i', j'] == AverageDetP(sf, st, sr, logM, z, i', j')
        invariant forall j' :: 0 <= j' < j ==> average[i, j'] == AverageDetP(sf, st, sr, logM, z, i, j')
      {
        var yc := st.y0FromLogM500(logM[j], z[i], Some(sr));
        var ycErr := ycLimitAtClusterRedshift / sf.SNRCut;
        average[i, j] := st.normSF(ycLimitAtClusterRedshift, yc, ycErr);
        j := j + 1;
      }
      i := i + 1;
    }
    surveyAverage := seq(nZ, i requires 0 <= i < nZ reads average =>
      seq(nM, j requires 0 <= j < nM reads average => average[i, j]));
    ghost var spec := SurveyAverageGrid(sf, st, sr, logM, z);
    forall i | 0 <= i < nZ ensures surveyAverage[i] == spec[i] {
      assert forall j :: 0 <= j < nM ==> surveyAverage[i][j] == spec[i][j];
    }
  }

  /** Every detection probability `addSelFn` stores lies in [0, 1]. */
  lemma {:induction false} CompletenessInUnitInterval(sf: SurveySelFn, st: Scaling, sr: ScalingRelation, logM: seq<real>, z: seq<real>)
    requires SelFnOk(sf) && ScalingOk(st)
    ensures forall t, i, j :: 0 <= t < |sf.ycLimits| && 0 <= i < |z| && 0 <= j < |logM| ==>
      0.0 <= CompletenessCube(sf, st, sr, logM, z)[t][i][j] <= 1.0
    ensures forall i, j :: 0 <= i < |z| && 0 <= j < |logM| ==>
      0.0 <= SurveyAverageGrid(sf, st, sr, logM, z)[i][j] <= 1.0
  {
    DetPInUnitInterval(sf, st, sr, logM, z);
  }

  /** A sampler whose splines fit an nz by nm grid. */
  predicate SamplerFits(s: Sampler, nz: nat, nm: nat)
  {
    s.Ready? ==>
      && |s.pz| == nz && |s.rows| == nz
      && forall i :: 0 <= i < nz ==> s.rows[i].Cut? && |s.rows[i].pM| == nm && s.rows[i].k <= nm
  }

  /** Completeness grids that fit an nz by nm grid, one per tile. */
  predicate SelFnFits(sel: SelFnState, nz: nat, nm: nat)
  {
    && SelFnOk(sel.sf)
    && |sel.surveyAverage| == nz
    && (forall i :: 0 <= i < nz ==> |sel.surveyAverage[i]| == nm)
    && |sel.completeness| == |sel.sf.ycLimits|
    && (forall t :: 0 <= t < |sel.completeness| ==> |sel.completeness[t]| == nz)
    && (forall t, i :: 0 <= t < |sel.completeness| && 0 <= i < nz ==> |sel.completeness[t][i]| == nm)
  }

  /** The survey-averaged noise `ycLimit_surveyAverage.mean() / SNRCut` is positive. */
  lemma {:induction false} NoisePositive(sf: SurveySelFn)
    requires SelFnOk(sf) && SurveyNoiseOk(sf)
    ensures Mean(sf.ycLimitSurveyAverage) / sf.SNRCut > 0.0
  {
    var m := Mean(sf.ycLimitSurveyAverage);
    assert m > 0.0;
  }

  /** One pass of the `drawSample` loop body: trial i with its rolls d. */
  method DrawTrial(cx: DrawContext, d: TrialDraws, i: nat) returns (o: Option<MockCluster>)
    requires ContextOk(cx)
    ensures o == TrialOutcome(cx, d, i)
    ensures o.Some? ==> d.pRoll < DetectionProbability(cx, d) && o.value.trial == i + 1
  {
    var zDraw := cx.lib.splev(cx.pz, cx.z, d.zRoll);
    var zIndex := NearestIndex(cx.z, zDraw);
    var row := cx.rows[zIndex];
    var log10MDraw := cx.lib.splev(row.pM[..row.k], cx.log10M[..row.k], d.mRoll);
    var log10MIndex := NearestIndex(cx.log10M, log10MDraw);
    var detP := cx.detP[zIndex][log10MIndex];
    assert zDraw == DrawnRedshift(cx, d) && log10MDraw == DrawnLog10M(cx, d);
    assert detP == DetectionProbability(cx, d);
    if d.pRoll < detP {
      var trueY0 := cx.stats.y0FromLogM500(log10MDraw, zDraw, None);
      var measuredY0 := trueY0 + cx.y0Noise * d.gauss;
      var m500 := cx.stats.calcM500Fromy0(measuredY0, cx.y0Noise, zDraw, cx.scaling, cx.cosmo);
      o := Some(MockCluster(
        "MOCK-CL" + DecimalString(i + 1), i + 1, zDraw, 0.0,
        cx.stats.pow10(log10MDraw) / MassUnit, trueY0 / 0.0001, measuredY0 / cx.y0Noise,
        measuredY0 / 0.0001, cx.y0Noise / 0.0001, m500));
      ghost var c := MockClusterOf(cx, d, i);
      assert c.fixedYc == measuredY0 / 0.0001;
      assert c.mass == m500;
      assert o.value == c;
    } else {
      o := None;
    }
  }

  /** The `drawSample` loop: the clusters kept by trials 0 .. trials - 1, in order. */
  method DrawTrials(cx: DrawContext, rng: nat -> TrialDraws, trials: nat) returns (mockCatalog: seq<MockCluster>)
    requires ContextOk(cx)
    ensures mockCatalog == Kept(Outcomes(cx, rng), trials)
  {
    ghost var outcome := Outcomes(cx, rng);
    mockCatalog := [];
    var i := 0;
    while i < trials
      invariant 0 <= i <= trials
      invariant mockCatalog == Kept(outcome, i)
    {
      var o := DrawTrial(cx, rng(i), i);
      assert outcome(i) == o;
      if o.Some? {
        mockCatalog := mockCatalog + [o.value];
      }
      assert mockCatalog == Kept(outcome, i + 1);
      i := i + 1;
    }
  }

  // ------------------------------------------------------------ the survey

  class MockSurvey {
    const lib: Library
    const minMass: real
    var cosmo: Cosmology
    const zBinEdges: seq<real>
    const z: seq<real>
    const log10M: seq<real>   // mass grid of the cosmology at construction time
    const areaSr: real
    var numberDensity: seq<seq<real>>
    var clusterCount: seq<seq<real>>
    var volumeMpc3: real
    var numClusters: real
    var numClustersByRedshift: seq<real>
    var sampler: Sampler
    var selFn: Option<SelFnState>

    /** The grids are those of the current cosmology; everything has the shapes of the grid. */
    ghost predicate Valid()
      reads this
    {
      && WellFormed(lib)
      && |zBinEdges| == NumZEdges
      && z == Centres(zBinEdges)
      && |log10M| == lib.massBins
      && numberDensity == DensityGrid(lib, cosmo, zBinEdges)
      && clusterCount == CountGrid(lib, cosmo, zBinEdges, areaSr)
      && volumeMpc3 == Sum(ShellVolumes(lib, cosmo, zBinEdges, areaSr))
      && numClusters == SumAll(clusterCount)
      && numClustersByRedshift == RowSums(clusterCount)
      && SamplerFits(sampler, |z|, lib.massBins)
      && (selFn.Some? ==> SelFnFits(selFn.value, |z|, lib.massBins))
    }

    constructor (lib: Library, minMass: real, areaDeg2: real, zMin: real, zMax: real, cosmo: Cosmology,
                 enableDrawSample: bool)
      requires WellFormed(lib)
      requires areaDeg2 >= 0.0
      ensures Valid()
      ensures this.lib == lib && this.minMass == minMass && this.cosmo == cosmo
      ensures zBinEdges == Edges(zMin, zMax)
      ensures areaSr == AreaSr(areaDeg2)
      ensures log10M == lib.log10Masses(cosmo)
      ensures sampler == if enableDrawSample then SamplerFor(clusterCount, numClusters) else Disabled
      ensures selFn.None?
    {
      this.lib := lib;
      this.minMass := minMass;
      this.cosmo := cosmo;
      var e := Edges(zMin, zMax);
      zBinEdges := e;
      z := Centres(e);
      log10M := lib.log10Masses(cosmo);
      areaSr := AreaSr(areaDeg2);
      selFn := None;
      sampler := Disabled;
      new;
      DoClusterCount();
      if enableDrawSample {
        var s := PrepareSampler(clusterCount, numClusters);
        SamplerForFits(clusterCount, numClusters, lib.massBins);
        sampler := s;
      }
    }

    /** `_doClusterCount`: the grids and totals for the current cosmology. */
    method DoClusterCount()
      requires WellFormed(lib) && |zBinEdges| == NumZEdges
      modifies this
      ensures numberDensity == DensityGrid(lib, cosmo, zBinEdges)
      ensures clusterCount == CountGrid(lib, cosmo, zBinEdges, areaSr)
      ensures volumeMpc3 == Sum(ShellVolumes(lib, cosmo, zBinEdges, areaSr))
      ensures numClusters == SumAll(clusterCount)
      ensures numClustersByRedshift == RowSums(clusterCount)
      ensures cosmo == old(cosmo) && sampler == old(sampler) && selFn == old(selFn)
    {
      var nd, cc, vol := CountShells(lib, cosmo, zBinEdges, areaSr);
      volumeMpc3 := vol;
      numberDensity := nd;
      clusterCount := cc;
      numClusters := SumAll(cc);
      numClustersByRedshift := RowSums(cc);
    }

    /** `update`: moves the mass function to a new cosmology and recounts; the splines are kept. */
    method Update(c: Cosmology)
      requires Valid()
      modifies this
      ensures Valid()
      ensures cosmo == c
      ensures clusterCount == CountGrid(lib, c, zBinEdges, areaSr)
      ensures sampler == old(sampler) && selFn == old(selFn)
    {
      cosmo := c;
      DoClusterCount();
    }

    /** `addSelFn`: detection probabilities per tile and survey-averaged, on the current mass grid. */
    method AddSelFn(sf: SurveySelFn, st: Scaling, sr: ScalingRelation)
      requires Valid() && SelFnOk(sf)
      modifies this
      ensures Valid()
      ensures selFn == Some(SelFnState(sf, st, sr,
        CompletenessCube(sf, st, sr, lib.log10Masses(cosmo), z),
        SurveyAverageGrid(sf, st, sr, lib.log10Masses(cosmo), z)))
      ensures cosmo == old(cosmo) && clusterCount == old(clusterCount) && sampler == old(sampler)
      ensures numClusters == old(numClusters)
    {
      var logM := lib.log10Masses(cosmo);
      var completeness := TileCompleteness(sf, st, sr, logM, z);
      var surveyAverage := SurveyAverageCompleteness(sf, st, sr, logM, z);
      selFn := Some(SelFnState(sf, st, sr, completeness, surveyAverage));
    }

    /** `calcNumClustersExpected`: the (optionally selection-weighted) count inside the limits. */
    function CalcNumClustersExpected(m500Limit: real, zMin: real, zMax: real, applySelFn: bool,
                                     useSurveyAverage: bool): (r: Result<real, QueryError>)
      reads this
      requires Valid()
      ensures applySelFn && selFn.None? ==> r == Err(NoSelFn)
      ensures applySelFn && !useSurveyAverage && selFn.Some? && |selFn.value.sf.ycLimits| == 0 ==>
        r == Err(NoTiles)
      ensures r.Ok? ==> r.value == ExpectedCount(Weighted(applySelFn, useSurveyAverage, clusterCount, selFn).value,
                                                 z, lib.massesMsun(cosmo), m500Limit, zMin, zMax)
    {
      var w :- Weighted(applySelFn, useSurveyAverage, clusterCount, selFn);
      var masses := lib.massesMsun(cosmo);
      Ok(ExpectedCount(w, z, masses, m500Limit, zMin, zMax))
    }

    /** Without the selection function and with limits enclosing the whole grid, the total count. */
    lemma {:induction false} CalcNumClustersExpectedAll(m500Limit: real, zMin: real, zMax: real, useSurveyAverage: bool)
      requires Valid()
      requires forall i :: 0 <= i < |z| ==> zMin < z[i] < zMax
      requires forall j :: 0 <= j < lib.massBins ==> lib.massesMsun(cosmo)[j] > m500Limit * MassUnit
      ensures CalcNumClustersExpected(m500Limit, zMin, zMax, false, useSurveyAverage) == Ok(numClusters)
    {
      ExpectedCountAll(clusterCount, z, lib.massesMsun(cosmo), m500Limit, zMin, zMax);
    }

    /** The inputs one draw reads, as the fields hold them. */
    function Context(): (cx: DrawContext)
      reads this
      requires Valid() && selFn.Some? && sampler.Ready? && SurveyNoiseOk(selFn.value.sf)
      ensures ContextOk(cx)
    {
      NoisePositive(selFn.value.sf);
      DrawContext(lib, selFn.value.stats, cosmo, selFn.value.scaling, z, log10M, sampler.pz, sampler.rows,
                  selFn.value.surveyAverage, Mean(selFn.value.sf.ycLimitSurveyAverage) / selFn.value.sf.SNRCut)
    }

    /** `drawSample`: `int(numClusters)` trials, trial i drawn from the rolls `rng(i)`. */
    method DrawSample(rng: nat -> TrialDraws) returns (r: Result<seq<MockCluster>, DrawError>)
      requires Valid()
      ensures selFn.None? ==> r == Err(SelFnMissing)
      ensures selFn.Some? && Trials(numClusters) == 0 ==> r == Ok([])
      ensures selFn.Some? && Trials(numClusters) > 0 && !sampler.Ready? ==> r == Err(SamplerUnavailable)
      ensures selFn.Some? && Trials(numClusters) > 0 && sampler.Ready? && !SurveyNoiseOk(selFn.value.sf) ==>
        r == Err(NoiseUndefined)
      ensures selFn.Some? && sampler.Ready? && SurveyNoiseOk(selFn.value.sf) ==>
        r == Ok(Kept(Outcomes(Context(), rng), Trials(numClusters)))
    {
      if selFn.None? {
        return Err(SelFnMissing);
      }
      var trials := Trials(numClusters);
      if trials == 0 {
        return Ok([]);
      }
      if !sampler.Ready? {
        return Err(SamplerUnavailable);
      }
      if !SurveyNoiseOk(selFn.value.sf) {
        return Err(NoiseUndefined);
      }
      var cx := Context();
      var mockCatalog := DrawTrials(cx, rng, trials);
      r := Ok(mockCatalog);
    }
  }

  /**
   * `MockSurvey(...)` as the caller sees it: the constructor raises (or
   * exits) when the sampler set-up fails, and otherwise yields the survey.
   */
  method NewMockSurvey(lib: Library, minMass: real, areaDeg2: real, zMin: real, zMax: real, cosmo: Cosmology,
                       enableDrawSample: bool) returns (r: Result<MockSurvey, SamplerFailure>)
    requires WellFormed(lib)
    requires areaDeg2 >= 0.0
    ensures var s := InitialSampler(lib, cosmo, zMin, zMax, areaDeg2, enableDrawSample);
      (r.Err? <==> s.Failed?) && (r.Err? ==> r.error == s.reason)
    ensures r.Ok? ==>
      fresh(r.value) && r.value.Valid() && r.value.cosmo == cosmo && r.value.selFn.None? &&
      r.value.zBinEdges == Edges(zMin, zMax) && r.value.areaSr == AreaSr(areaDeg2) &&
      r.value.sampler == InitialSampler(lib, cosmo, zMin, zMax, areaDeg2, enableDrawSample)
  {
    var m := new MockSurvey(lib, minMass, areaDeg2, zMin, zMax, cosmo, enableDrawSample);
    if m.sampler.Failed? {
      return Err(m.sampler.reason);
    }
    return Ok(m);
  }
}
