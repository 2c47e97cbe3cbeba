/**
 * nemo/SelFn.py: the survey selection function re-evaluated for new cosmological
 * and scaling-relation parameters. It validates the requested footprint, keeps
 * one record per map tile with the tile's area and noise, owns a sampling-enabled
 * MockSurvey in the fiducial cosmology, and stores the tile-area-weighted average
 * of the per-tile (mass, redshift) completeness grids.
 *
 * The selFnTools routines (tile area, tile noise, completeness table and its
 * regridding) are not part of this model: they are the function-valued fields of
 * `SelFnTools`, constrained only by the facts the code relies on.
 */
module SelFn {
  import opened Common
  import MS = MockSurvey

  /** One entry of `selFnFootprints` in the configuration (`name` is its `label` key). */
  datatype Footprint = Footprint(name: string, maskList: seq<string>)

  /** The parts of the parsed configuration the selection function reads. */
  datatype SelFnConfig = SelFnConfig(
    selFnFootprints: Option<seq<Footprint>>,   // None when the key is absent
    photFilter: string,                        // photometryOptions['photFilter']
    massOptions: MS.ScalingRelation)           // parDict['massOptions']

  datatype SelFnError =
    | NoFootprintsDefined
    | FootprintNotFound(footprint: string)
    | SamplerSetUp(reason: MS.SamplerFailure)  // the MockSurvey constructor raises or exits

  /** The completeness table `calcCompleteness` returns for one tile, kept abstract. */
  datatype FitTab = FitTab(rows: seq<seq<real>>)

  /** The selFnTools routines, as pure functions of their inputs. */
  datatype SelFnTools = SelFnTools(
    // getTileTotalAreaDeg2(extName, footprintLabel)
    tileArea: (string, Option<string>) -> real,
    // calcTileWeightedAverageNoise(extName, photFilterLabel, footprintLabel)
    tileNoise: (string, string, Option<string>) -> real,
    // calcCompleteness(y0Noise, SNRCut, extName, mockSurvey, scalingRelationDict, ...)
    calcCompleteness: (real, real, string, MS.Cosmology, MS.ScalingRelation) -> FitTab,
    // makeMzCompletenessGrid(fitTab, mockSurvey)
    mzGrid: (FitTab, MS.Cosmology) -> seq<seq<real>>,
    // the (redshift, mass) shape of every grid makeMzCompletenessGrid returns
    nz: nat,
    nm: nat)

  /** A grid of exactly nz rows of nm cells. */
  predicate Shaped(g: seq<seq<real>>, nz: nat, nm: nat)
  {
    |g| == nz && forall i :: 0 <= i < nz ==> |g[i]| == nm
  }

  predicate CubeShaped(cube: seq<seq<seq<real>>>, nz: nat, nm: nat)
  {
    forall t :: 0 <= t < |cube| ==> Shaped(cube[t], nz, nm)
  }

  /** Tile areas are areas, and every completeness grid has the same shape. */
  ghost predicate ToolsOk(tools: SelFnTools)
  {
    && (forall e, fp :: tools.tileArea(e, fp) >= 0.0)
    && (forall f, c :: Shaped(tools.mzGrid(f, c), tools.nz, tools.nm))
  }

  /** Fiducial parameters the selection function was derived in. */
  const FiducialMinMass: real := 50000000000000.0
  const FiducialZMin: real := 0.0
  const FiducialZMax: real := 2.0
  const FiducialH0: real := 70.0
  const FiducialOm0: real := 0.3
  const FiducialOb0: real := 0.05
  const FiducialSigma8: real := 0.8

  // ------------------------------------------------------------- footprint

  /** No footprint is asked for, or the one asked for is among those defined. */
  predicate FootprintDefined(footprintLabel: Option<string>, footprints: Option<seq<Footprint>>)
  {
    footprintLabel.None? ||
    (footprints.Some? && exists k :: 0 <= k < |footprints.value| && footprints.value[k].name == footprintLabel.value)
  }

  /** The footprint check of the constructor: None skips it. */
  method CheckFootprint(footprintLabel: Option<string>, footprints: Option<seq<Footprint>>)
    returns (r: Result<(), SelFnError>)
    ensures r.Ok? <==> FootprintDefined(footprintLabel, footprints)
    ensures footprintLabel.Some? && footprints.None? ==> r == Err(NoFootprintsDefined)
    ensures r.Err? && footprints.Some? ==> r == Err(FootprintNotFound(footprintLabel.value))
  {
    if footprintLabel.None? {
      return Ok(());
    }
    if footprints.None? {
      return Err(NoFootprintsDefined);
    }
    var labelsList: seq<string> := [];
    var k := 0;
    while k < |footprints.value|
      invariant 0 <= k <= |footprints.value|
      invariant |labelsList| == k
      invariant forall j :: 0 <= j < k ==> labelsList[j] == footprints.value[j].name
    {
      labelsList := labelsList + [footprints.value[k].name];
      k := k + 1;
    }
    if footprintLabel.value !in labelsList {
      return Err(FootprintNotFound(footprintLabel.value));
    }
    var j :| 0 <= j < |labelsList| && labelsList[j] == footprintLabel.value;
    assert footprints.value[j].name == footprintLabel.value;
    return Ok(());
  }

  // ------------------------------------------------------------ tile table

  /** One entry of `selFnDictList`; `fitTab` is set by every update. */
  datatype TileSelFn = TileSelFn(extName: string, y0Noise: real, tileAreaDeg2: real, fitTab: Option<FitTab>)

  function TileAreas(list: seq<TileSelFn>): (a: seq<real>)
    ensures |a| == |list|
  {
    seq(|list|, i requires 0 <= i < |list| => list[i].tileAreaDeg2)
  }

  /** The area of each named tile, in extName order. */
  function AreasOf(tools: SelFnTools, extNames: seq<string>, footprintLabel: Option<string>): (a: seq<real>)
    ensures |a| == |extNames|
  {
    seq(|extNames|, i requires 0 <= i < |extNames| => tools.tileArea(extNames[i], footprintLabel))
  }

  /** The loop of the constructor: one record per tile, and the running total of the areas. */
  method TileTable(tools: SelFnTools, extNames: seq<string>, photFilterLabel: string, footprintLabel: Option<string>)
    returns (selFnDictList: seq<TileSelFn>, totalAreaDeg2: real)
    ensures |selFnDictList| == |extNames|
    ensures forall i :: 0 <= i < |extNames| ==>
      selFnDictList[i] == TileSelFn(extNames[i], tools.tileNoise(extNames[i], photFilterLabel, footprintLabel),
                                    tools.tileArea(extNames[i], footprintLabel), None)
    ensures TileAreas(selFnDictList) == AreasOf(tools, extNames, footprintLabel)
    ensures totalAreaDeg2 == Sum(AreasOf(tools, extNames, footprintLabel))
  {
    selFnDictList := [];
    totalAreaDeg2 := 0.0;
    ghost var areas := AreasOf(tools, extNames, footprintLabel);
    for i := 0 to |extNames|
      invariant |selFnDictList| == i
      invariant forall j :: 0 <= j < i ==>
        selFnDictList[j] == TileSelFn(extNames[j], tools.tileNoise(extNames[j], photFilterLabel, footprintLabel),
                                      tools.tileArea(extNames[j], footprintLabel), None)
      invariant totalAreaDeg2 == Sum(areas[..i])
    {
      var extName := extNames[i];
      var tileAreaDeg2 := tools.tileArea(extName, footprintLabel);
      var y0Noise := tools.tileNoise(extName, photFilterLabel, footprintLabel);
      selFnDictList := selFnDictList + [TileSelFn(extName, y0Noise, tileAreaDeg2, None)];
      assert areas[..i + 1][..i] == areas[..i];
      totalAreaDeg2 := totalAreaDeg2 + tileAreaDeg2;
    }
    assert areas[..|extNames|] == areas;
  }

  /** With non-negative tile areas the total is non-negative. */
  lemma {:induction false} TotalAreaNonNeg(tools: SelFnTools, extNames: seq<string>, footprintLabel: Option<string>)
    requires ToolsOk(tools)
    ensures Sum(AreasOf(tools, extNames, footprintLabel)) >= 0.0
  {
    var a := AreasOf(tools, extNames, footprintLabel);
    assert AllNonNeg(a);
    SumNonNeg(a);
  }

  // ------------------------------------------------------ weighted average

  /** Each tile's completeness table recomputed in the given cosmology and scaling relation. */
  function Refit(tools: SelFnTools, list: seq<TileSelFn>, SNRCut: real, c: MS.Cosmology,
                 sr: MS.ScalingRelation): (r: seq<TileSelFn>)
    ensures |r| == |list|
    ensures TileAreas(r) == TileAreas(list)
    ensures forall i :: 0 <= i < |list| ==>
      r[i].extName == list[i].extName && r[i].y0Noise == list[i].y0Noise && r[i].fitTab.Some?
  {
    seq(|list|, i requires 0 <= i < |list| =>
      list[i].(fitTab := Some(tools.calcCompleteness(list[i].y0Noise, SNRCut, list[i].extName, c, sr))))
  }

  /** `compMzCube`: the regridded completeness of every tile whose table is set. */
  function Cube(tools: SelFnTools, list: seq<TileSelFn>, c: MS.Cosmology): (cube: seq<seq<seq<real>>>)
    ensures |cube| == |list|
    ensures ToolsOk(tools) && (forall t :: 0 <= t < |list| ==> list[t].fitTab.Some?) ==>
      CubeShaped(cube, tools.nz, tools.nm)
  {
    seq(|list|, i requires 0 <= i < |list| =>
      if list[i].fitTab.Some? then tools.mzGrid(list[i].fitTab.value, c) else [])
  }

  /** `tileAreas / totalAreaDeg2`. */
  function FracArea(areas: seq<real>, totalAreaDeg2: real): (w: seq<real>)
    requires totalAreaDeg2 != 0.0
    ensures |w| == |areas|
  {
    seq(|areas|, i requires 0 <= i < |areas| => areas[i] / totalAreaDeg2)
  }

  /** The values of one cell across the tiles, `cube[:, i, j]`. */
  function Column(cube: seq<seq<seq<real>>>, nz: nat, nm: nat, i: nat, j: nat): (x: seq<real>)
    requires CubeShaped(cube, nz, nm) && i < nz && j < nm
    ensures |x| == |cube|
  {
    seq(|cube|, t requires 0 <= t < |cube| => cube[t][i][j])
  }

  /** The products `w[t] * x[t]`. */
  function Products(w: seq<real>, x: seq<real>): (s: seq<real>)
    requires |w| == |x|
    ensures |s| == |w|
  {
    seq(|w|, t requires 0 <= t < |w| => w[t] * x[t])
  }

  /** The weighted mean of x: the weighted sum divided by the weight sum. */
  function WeightedMean(w: seq<real>, x: seq<real>): real
    requires |w| == |x| && Sum(w) != 0.0
  {
    Sum(Products(w, x)) / Sum(w)
  }

  /**
   * `np.average(cube, axis = 0, weights = w)`: the weighted mean of every cell
   * over the tiles; numpy refuses weights that sum to zero.
   */
  function WeightedAverage(cube: seq<seq<seq<real>>>, w: seq<real>, nz: nat, nm: nat)
    : (r: Result<seq<seq<real>>, ()>)
    requires |cube| == |w| && CubeShaped(cube, nz, nm)
    ensures r.Ok? <==> Sum(w) != 0.0
    ensures r.Ok? ==> Shaped(r.value, nz, nm)
    ensures r.Ok? ==> forall i, j :: 0 <= i < nz && 0 <= j < nm ==>
      r.value[i][j] == WeightedMean(w, Column(cube, nz, nm, i, j))
  {
    if Sum(w) == 0.0 then Err(())
    else Ok(seq(nz, i requires 0 <= i < nz =>
      seq(nm, j requires 0 <= j < nm => WeightedMean(w, Column(cube, nz, nm, i, j)))))
  }

  /** Two grids of the same shape that agree cell by cell are equal. */
  lemma {:induction false} SameGrid(a: seq<seq<real>>, b: seq<seq<real>>, nz: nat, nm: nat)
    requires Shaped(a, nz, nm) && Shaped(b, nz, nm)
    requires forall i, j :: 0 <= i < nz && 0 <= j < nm ==> a[i][j] == b[i][j]
    ensures a == b
  {
    forall i | 0 <= i < nz ensures a[i] == b[i] {
      assert forall j :: 0 <= j < nm ==> a[i][j] == b[i][j];
    }
  }

  lemma {:induction false} ProductsScale(w: seq<real>, x: seq<real>, c: real)
    requires |w| == |x|
    ensures Products(Scale(w, c), x) == Scale(Products(w, x), c)
  {
    forall t | 0 <= t < |w| ensures Products(Scale(w, c), x)[t] == Scale(Products(w, x), c)[t] {
      assert (c * w[t]) * x[t] == c * (w[t] * x[t]);
    }
  }

  lemma {:induction false} WeightedSumScale(w: seq<real>, x: seq<real>, c: real)
    requires |w| == |x|
    ensures Sum(Products(Scale(w, c), x)) == c * Sum(Products(w, x))
  {
    ProductsScale(w, x, c);
    SumScale(Products(w, x), c);
  }

  /** The mean does not change when every weight is multiplied by the same non-zero factor. */
  lemma {:induction false} WeightedMeanScaleInvariant(w: seq<real>, x: seq<real>, c: real)
    requires |w| == |x| && Sum(w) != 0.0 && c != 0.0
    ensures Sum(Scale(w, c)) != 0.0
    ensures WeightedMean(Scale(w, c), x) == WeightedMean(w, x)
  {
    var p, q := Sum(Products(Scale(w, c), x)), Sum(Scale(w, c));
    var s, y := Sum(Products(w, x)), Sum(w);
    assert p == c * s by { WeightedSumScale(w, x, c); }
    assert q == c * y by { SumScale(w, c); }
    RatioScale(p, q, s, y, c);
  }

  lemma {:induction false} RatioScale(p: real, q: real, x: real, y: real, c: real)
    requires p == c * x && q == c * y
    requires y != 0.0 && c != 0.0
    ensures q != 0.0 && p / q == x / y
  {
  }

  /** The weights are renormalised: scaling them all by the same factor changes nothing. */
  lemma {:induction false} WeightedAverageScaleInvariant(cube: seq<seq<seq<real>>>, w: seq<real>, nz: nat, nm: nat, c: real)
    requires |cube| == |w| && CubeShaped(cube, nz, nm)
    requires c != 0.0
    ensures WeightedAverage(cube, Scale(w, c), nz, nm) == WeightedAverage(cube, w, nz, nm)
  {
    SumScale(w, c);
    if Sum(w) != 0.0 {
      assert c * Sum(w) != 0.0;
      var a := WeightedAverage(cube, Scale(w, c), nz, nm).value;
      var b := WeightedAverage(cube, w, nz, nm).value;
      forall i, j | 0 <= i < nz && 0 <= j < nm ensures a[i][j] == b[i][j] {
        WeightedMeanScaleInvariant(w, Column(cube, nz, nm, i, j), c);
      }
      SameGrid(a, b, nz, nm);
    }
  }

  /** Non-negative weights of positive sum average values in [0, 1] to a value in [0, 1]. */
  lemma {:induction false} WeightedMeanInUnitInterval(w: seq<real>, x: seq<real>)
    requires |w| == |x| && AllNonNeg(w) && Sum(w) > 0.0
    requires forall t :: 0 <= t < |x| ==> 0.0 <= x[t] <= 1.0
    ensures 0.0 <= WeightedMean(w, x) <= 1.0
  {
    var s := Products(w, x);
    forall t | 0 <= t < |s| ensures 0.0 <= s[t] <= w[t] {
      ProductBounds(w[t], x[t], s[t]);
    }
    SumNonNeg(s);
    SumMonotone(s, w);
    FractionBounds(Sum(s), Sum(w));
  }

  lemma {:induction false} ProductBounds(a: real, x: real, p: real)
    requires a >= 0.0 && 0.0 <= x <= 1.0 && p == a * x
    ensures 0.0 <= p <= a
  {
  }

  /** With non-negative weights of positive sum, grids of probabilities average to a probability grid. */
  lemma {:induction false} WeightedAverageInUnitInterval(cube: seq<seq<seq<real>>>, w: seq<real>, nz: nat, nm: nat)
    requires |cube| == |w| && CubeShaped(cube, nz, nm)
    requires AllNonNeg(w) && Sum(w) > 0.0
    requires forall t, i, j :: 0 <= t < |cube| && 0 <= i < nz && 0 <= j < nm ==> 0.0 <= cube[t][i][j] <= 1.0
    ensures forall i, j :: 0 <= i < nz && 0 <= j < nm ==>
      0.0 <= WeightedAverage(cube, w, nz, nm).value[i][j] <= 1.0
  {
    forall i, j | 0 <= i < nz && 0 <= j < nm ensures 0.0 <= WeightedMean(w, Column(cube, nz, nm, i, j)) <= 1.0 {
      WeightedMeanInUnitInterval(w, Column(cube, nz, nm, i, j));
    }
  }

  /** The weighted mean of a constant is that constant. */
  lemma {:induction false} WeightedMeanConstant(w: seq<real>, x: seq<real>, v: real)
    requires |w| == |x| && Sum(w) != 0.0
    requires forall t :: 0 <= t < |x| ==> x[t] == v
    ensures WeightedMean(w, x) == v
  {
    var sw := Sum(w);
    ProductsConstant(w, x, v);
    SumScale(w, v);
    assert Sum(Products(w, x)) == v * sw;
    assert WeightedMean(w, x) == (v * sw) / sw;
    assert (v * sw) / sw == v && (sw * v) / sw == v;
  }

  lemma {:induction false} ProductsConstant(w: seq<real>, x: seq<real>, v: real)
    requires |w| == |x|
    requires forall t :: 0 <= t < |x| ==> x[t] == v
    ensures Products(w, x) == Scale(w, v)
  {
    forall t | 0 <= t < |w| ensures Products(w, x)[t] == Scale(w, v)[t] {
      assert w[t] * v == v * w[t];
    }
  }

  /** When every tile has the same grid the average is that grid. */
  lemma {:induction false} WeightedAverageUniform(cube: seq<seq<seq<real>>>, w: seq<real>, nz: nat, nm: nat, g: seq<seq<real>>)
    requires |cube| == |w| && CubeShaped(cube, nz, nm)
    requires Sum(w) != 0.0
    requires forall t :: 0 <= t < |cube| ==> cube[t] == g
    requires Shaped(g, nz, nm)
    ensures WeightedAverage(cube, w, nz, nm) == Ok(g)
  {
    var avg := WeightedAverage(cube, w, nz, nm).value;
    forall i, j | 0 <= i < nz && 0 <= j < nm ensures avg[i][j] == g[i][j] {
      WeightedMeanConstant(w, Column(cube, nz, nm, i, j), g[i][j]);
    }
    SameGrid(avg, g, nz, nm);
  }

  /** The area fractions sum to the total area over `totalAreaDeg2`: to 1 when it is the total. */
  lemma {:induction false} FracAreaSum(areas: seq<real>, totalAreaDeg2: real)
    requires totalAreaDeg2 != 0.0
    ensures Sum(FracArea(areas, totalAreaDeg2)) == Sum(areas) / totalAreaDeg2
  {
    forall i | 0 <= i < |areas| ensures FracArea(areas, totalAreaDeg2)[i] == Scale(areas, 1.0 / totalAreaDeg2)[i] {
      DivideAsScale(areas[i], totalAreaDeg2);
    }
    assert FracArea(areas, totalAreaDeg2) == Scale(areas, 1.0 / totalAreaDeg2);
    SumScale(areas, 1.0 / totalAreaDeg2);
  }

  lemma {:induction false} DivideAsScale(a: real, y: real)
    requires y != 0.0
    ensures a / y == (1.0 / y) * a
  {
  }

  /**
   * With every table set and the total the sum of the tile areas, the weights sum
   * to 1 and `np.average` is defined.
   */
  lemma {:induction false} AverageDefined(tools: SelFnTools, list: seq<TileSelFn>, c: MS.Cosmology, totalAreaDeg2: real)
    requires ToolsOk(tools)
    requires forall t :: 0 <= t < |list| ==> list[t].fitTab.Some?
    requires totalAreaDeg2 == Sum(TileAreas(list)) && totalAreaDeg2 != 0.0
    ensures CubeShaped(Cube(tools, list, c), tools.nz, tools.nm)
    ensures Sum(FracArea(TileAreas(list), totalAreaDeg2)) == 1.0
    ensures WeightedAverage(Cube(tools, list, c), FracArea(TileAreas(list), totalAreaDeg2), tools.nz, tools.nm).Ok?
  {
    FracAreaSum(TileAreas(list), totalAreaDeg2);
    SelfRatio(totalAreaDeg2);
  }

  /** The loop of `update`: area list, refreshed tables and the completeness cube. */
  method RefitTiles(tools: SelFnTools, selFnDictList: seq<TileSelFn>, SNRCut: real, c: MS.Cosmology,
                    sr: MS.ScalingRelation)
    returns (newList: seq<TileSelFn>, tileAreas: seq<real>, compMzCube: seq<seq<seq<real>>>)
    ensures newList == Refit(tools, selFnDictList, SNRCut, c, sr)
    ensures tileAreas == TileAreas(selFnDictList)
    ensures compMzCube == Cube(tools, newList, c)
  {
    newList, tileAreas, compMzCube := [], [], [];
    ghost var refit := Refit(tools, selFnDictList, SNRCut, c, sr);
    for k := 0 to |selFnDictList|
      invariant newList == refit[..k]
      invariant tileAreas == TileAreas(selFnDictList)[..k]
      invariant compMzCube == Cube(tools, refit, c)[..k]
    {
      var selFnDict := selFnDictList[k];
      tileAreas := tileAreas + [selFnDict.tileAreaDeg2];
      var fitTab := tools.calcCompleteness(selFnDict.y0Noise, SNRCut, selFnDict.extName, c, sr);
      newList := newList + [selFnDict.(fitTab := Some(fitTab))];
      compMzCube := compMzCube + [tools.mzGrid(fitTab, c)];
    }
  }

  // ------------------------------------------------------ the selection function

  class SelFn {
    const SNRCut: real
    const footprintLabel: Option<string>
    const extNames: seq<string>
    const photFilterLabel: string
    const tools: SelFnTools
    var scalingRelationDict: MS.ScalingRelation
    var selFnDictList: seq<TileSelFn>
    var totalAreaDeg2: real
    const mockSurvey: MS.MockSurvey
    var compMz: seq<seq<real>>

    /** One record per tile in extName order, the total is their area, and it is positive. */
    ghost predicate Valid()
      reads this, mockSurvey
    {
      && mockSurvey.Valid()
      && ToolsOk(tools)
      && |selFnDictList| == |extNames|
      && (forall i :: 0 <= i < |extNames| ==> selFnDictList[i].extName == extNames[i])
      && totalAreaDeg2 == Sum(TileAreas(selFnDictList))
      && totalAreaDeg2 > 0.0
    }

    /**
     * The constructor after the footprint check: the tile table, the fiducial
     * MockSurvey over the total area, and one update in the fiducial cosmology.
     */
    constructor (lib: MS.Library, tools: SelFnTools, cfg: SelFnConfig, extNames: seq<string>, SNRCut: real,
                 footprintLabel: Option<string>)
      requires MS.WellFormed(lib) && ToolsOk(tools)
      requires Sum(AreasOf(tools, extNames, footprintLabel)) > 0.0
      ensures Valid()
      ensures this.SNRCut == SNRCut && this.footprintLabel == footprintLabel && this.extNames == extNames
      ensures totalAreaDeg2 == Sum(AreasOf(tools, extNames, footprintLabel))
      ensures TileAreas(selFnDictList) == AreasOf(tools, extNames, footprintLabel)
      ensures scalingRelationDict == cfg.massOptions
      ensures mockSurvey.cosmo == MS.Cosmology(FiducialH0, FiducialOm0, FiducialOb0, FiducialSigma8)
      ensures mockSurvey.minMass == FiducialMinMass
      ensures mockSurvey.zBinEdges == MS.Edges(FiducialZMin, FiducialZMax)
      ensures mockSurvey.areaSr == MS.AreaSr(totalAreaDeg2)
      ensures mockSurvey.selFn.None?
      ensures mockSurvey.sampler == MS.InitialSampler(lib, MS.Cosmology(FiducialH0, FiducialOm0, FiducialOb0, FiducialSigma8),
                                                      FiducialZMin, FiducialZMax, totalAreaDeg2, true)
      ensures CubeShaped(Cube(tools, selFnDictList, mockSurvey.cosmo), tools.nz, tools.nm)
      ensures WeightedAverage(Cube(tools, selFnDictList, mockSurvey.cosmo),
                              FracArea(TileAreas(selFnDictList), totalAreaDeg2), tools.nz, tools.nm) == Ok(compMz)
    {
      this.SNRCut := SNRCut;
      this.footprintLabel := footprintLabel;
      this.extNames := extNames;
      this.tools := tools;
      photFilterLabel := cfg.photFilter;
      scalingRelationDict := cfg.massOptions;
      var list, total := TileTable(tools, extNames, cfg.photFilter, footprintLabel);
      selFnDictList := list;
      totalAreaDeg2 := total;
      var fiducial := MS.Cosmology(FiducialH0, FiducialOm0, FiducialOb0, FiducialSigma8);
      mockSurvey := new MS.MockSurvey(lib, FiducialMinMass, total, FiducialZMin, FiducialZMax, fiducial, true);
      compMz := [];
      new;
      MS.SamplerReadyIff(mockSurvey.clusterCount, mockSurvey.numClusters);
      Update(FiducialH0, FiducialOm0, FiducialOb0, FiducialSigma8, None);
    }

    /**
     * `update`: new parameters for the MockSurvey, the scaling relation replaced
     * only when one is given, every tile's table recomputed, and `compMz` the
     * area-weighted average of the tiles' completeness grids.
     */
    method Update(H0: real, Om0: real, Ob0: real, sigma8: real, sr: Option<MS.ScalingRelation>)
      requires Valid()
      modifies this, mockSurvey
      ensures Valid()
      ensures scalingRelationDict == (if sr.Some? then sr.value else old(scalingRelationDict))
      ensures mockSurvey.cosmo == MS.Cosmology(H0, Om0, Ob0, sigma8)
      ensures mockSurvey.sampler == old(mockSurvey.sampler) && mockSurvey.selFn == old(mockSurvey.selFn)
      ensures selFnDictList == Refit(tools, old(selFnDictList), SNRCut, mockSurvey.cosmo, scalingRelationDict)
      ensures totalAreaDeg2 == old(totalAreaDeg2)
      ensures CubeShaped(Cube(tools, selFnDictList, mockSurvey.cosmo), tools.nz, tools.nm)
      ensures WeightedAverage(Cube(tools, selFnDictList, mockSurvey.cosmo),
                              FracArea(TileAreas(selFnDictList), totalAreaDeg2), tools.nz, tools.nm) == Ok(compMz)
    {
      if sr.Some? {
        scalingRelationDict := sr.value;
      }
      var c := MS.Cosmology(H0, Om0, Ob0, sigma8);
      mockSurvey.Update(c);
      var newList, tileAreas, compMzCube := RefitTiles(tools, selFnDictList, SNRCut, c, scalingRelationDict);
      selFnDictList := newList;
      AverageDefined(tools, newList, c, totalAreaDeg2);
      var avg := WeightedAverage(compMzCube, FracArea(tileAreas, totalAreaDeg2), tools.nz, tools.nm);
      compMz := avg.value;
    }
  }

  /**
   * The whole constructor: the footprint check first, then construction. A
   * survey of zero total area expects no clusters, so the MockSurvey's sampler
   * set-up fails on the zero total before any area fraction is taken.
   */
  method NewSelFn(lib: MS.Library, tools: SelFnTools, cfg: SelFnConfig, extNames: seq<string>, SNRCut: real,
                  footprintLabel: Option<string>) returns (r: Result<SelFn, SelFnError>)
    requires MS.WellFormed(lib) && ToolsOk(tools)
    ensures Sum(AreasOf(tools, extNames, footprintLabel)) >= 0.0
    ensures var sampler := MS.InitialSampler(lib, MS.Cosmology(FiducialH0, FiducialOm0, FiducialOb0, FiducialSigma8),
                                             FiducialZMin, FiducialZMax, Sum(AreasOf(tools, extNames, footprintLabel)), true);
      r.Ok? <==> FootprintDefined(footprintLabel, cfg.selFnFootprints) && !sampler.Failed?
    ensures r.Err? && FootprintDefined(footprintLabel, cfg.selFnFootprints) ==>
      r.error == SamplerSetUp(MS.InitialSampler(lib, MS.Cosmology(FiducialH0, FiducialOm0, FiducialOb0, FiducialSigma8),
                                                FiducialZMin, FiducialZMax, Sum(AreasOf(tools, extNames, footprintLabel)),
                                                true).reason)
    ensures FootprintDefined(footprintLabel, cfg.selFnFootprints) && Sum(AreasOf(tools, extNames, footprintLabel)) == 0.0 ==>
      r == Err(SamplerSetUp(MS.ZeroTotalCount))
    ensures r.Ok? ==> fresh(r.value) && r.value.Valid() && r.value.extNames == extNames
  {
    TotalAreaNonNeg(tools, extNames, footprintLabel);
    var check := CheckFootprint(footprintLabel, cfg.selFnFootprints);
    if check.Err? {
      return Err(check.error);
    }
    if Sum(AreasOf(tools, extNames, footprintLabel)) == 0.0 {
      MS.ZeroAreaZeroCounts(lib, MS.Cosmology(FiducialH0, FiducialOm0, FiducialOb0, FiducialSigma8),
                            MS.Edges(FiducialZMin, FiducialZMax));
      return Err(SamplerSetUp(MS.ZeroTotalCount));
    }
    var s := new SelFn(lib, tools, cfg, extNames, SNRCut, footprintLabel);
    if s.mockSurvey.sampler.Failed? {
      return Err(SamplerSetUp(s.mockSurvey.sampler.reason));
    }
    return Ok(s);
  }

  /**
   * The stored completeness is a probability grid whenever every tile's grid is:
   * the area fractions are non-negative and sum to 1.
   */
  lemma {:induction false} CompMzInUnitInterval(tools: SelFnTools, list: seq<TileSelFn>, c: MS.Cosmology, totalAreaDeg2: real)
    requires ToolsOk(tools)
    requires forall t :: 0 <= t < |list| ==> list[t].fitTab.Some?
    requires AllNonNeg(TileAreas(list))
    requires totalAreaDeg2 == Sum(TileAreas(list)) && totalAreaDeg2 > 0.0
    requires forall f, i, j :: 0 <= i < tools.nz && 0 <= j < tools.nm ==> 0.0 <= tools.mzGrid(f, c)[i][j] <= 1.0
    ensures CubeShaped(Cube(tools, list, c), tools.nz, tools.nm)
    ensures WeightedAverage(Cube(tools, list, c), FracArea(TileAreas(list), totalAreaDeg2), tools.nz, tools.nm).Ok?
    ensures forall i, j :: 0 <= i < tools.nz && 0 <= j < tools.nm ==>
      0.0 <= WeightedAverage(Cube(tools, list, c), FracArea(TileAreas(list), totalAreaDeg2), tools.nz, tools.nm)
        .value[i][j] <= 1.0
  {
    AverageDefined(tools, list, c, totalAreaDeg2);
    var cube := Cube(tools, list, c);
    var w := FracArea(TileAreas(list), totalAreaDeg2);
    forall t | 0 <= t < |w| ensures w[t] >= 0.0 {
      assert w[t] == TileAreas(list)[t] / totalAreaDeg2;
    }
    forall t, i, j | 0 <= t < |cube| && 0 <= i < tools.nz && 0 <= j < tools.nm
      ensures 0.0 <= cube[t][i][j] <= 1.0
    {
      assert cube[t] == tools.mzGrid(list[t].fitTab.value, c);
    }
    WeightedAverageInUnitInterval(cube, w, tools.nz, tools.nm);
  }
}
