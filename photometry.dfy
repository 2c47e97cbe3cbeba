/**
 * Source finding and photometry of nemo's `photometry.py`: the annulus
 * footprint, thresholding of S/N maps, the border window and acceptance test
 * of `findObjects`, the template-map lookup and S/N reads of `getSNValues`,
 * and the flux columns `measureFluxes` writes.
 */
module Photometry {
  import opened Common
  import opened Maps

  datatype PhotError =
    | NegativeDimensions          // `np.zeros` with a negative size
    | NoTemplateKey               // "didn't find templateKey"
    | MissingColumn(key: string)  // KeyError on a catalogue entry
    | PixelOutOfRange             // IndexError on the point-source mask
    | AmbiguousTruthValue         // `if array != None` on an array of several pixels
    | UnknownSNMap(kind: string)  // `SNMap` neither 'file' nor 'array'
    | UnsupportedUnits(units: string) // 'Y500' and 'Jy/beam' stop the program

  // ------------------------------------------------------------- annulus

  /** Squared distance of cell (y, x) from (c, c). */
  function Dist2(y: int, x: int, c: int): int
  {
    (x - c) * (x - c) + (y - c) * (y - c)
  }

  /**
   * Whether a cell at squared distance `d2` from the centre lies strictly
   * between the radii: `inner < sqrt(d2) < outer`, compared on squares
   * (a negative inner radius excludes nothing).
   */
  predicate BetweenRadii(d2: int, inner: int, outer: int)
  {
    (inner < 0 || d2 > inner * inner) && outer > 0 && d2 < outer * outer
  }

  /**
   * `makeAnnulus`: a `2R x 2R` grid, `R = round(outerScalePix)`, holding 1
   * exactly on the cells strictly between the rounded radii around (R, R).
   */
  function MakeAnnulus(innerScalePix: real, outerScalePix: real): (r: Result<seq<seq<int>>, PhotError>)
    ensures var outer := RoundHalfAway(outerScalePix);
      (r.Err? <==> outer < 0) &&
      (r.Ok? ==>
        |r.value| == 2 * outer && forall y :: 0 <= y < |r.value| ==> |r.value[y]| == 2 * outer)
  {
    var inner := RoundHalfAway(innerScalePix);
    var outer := RoundHalfAway(outerScalePix);
    if outer < 0 then Err(NegativeDimensions)
    else
      Ok(seq(2 * outer, y requires 0 <= y < 2 * outer =>
        seq(2 * outer, x requires 0 <= x < 2 * outer =>
          if BetweenRadii(Dist2(y, x, outer), inner, outer) then 1 else 0)))
  }

  /** Every cell is 0 or 1, and is 1 exactly between the two rounded radii. */
  lemma {:induction false} AnnulusCells(innerScalePix: real, outerScalePix: real, y: nat, x: nat)
    requires MakeAnnulus(innerScalePix, outerScalePix).Ok?
    requires y < |MakeAnnulus(innerScalePix, outerScalePix).value|
    requires x < |MakeAnnulus(innerScalePix, outerScalePix).value[y]|
    ensures var a := MakeAnnulus(innerScalePix, outerScalePix).value;
      var outer := RoundHalfAway(outerScalePix);
      (a[y][x] == 1 <==> BetweenRadii(Dist2(y, x, outer), RoundHalfAway(innerScalePix), outer)) &&
      (a[y][x] == 0 || a[y][x] == 1)
  {
  }

  /**
   * The centre cell (R, R) is part of the annulus exactly when the rounded
   * inner radius is negative.
   */
  lemma {:induction false} AnnulusCentre(innerScalePix: real, outerScalePix: real)
    requires MakeAnnulus(innerScalePix, outerScalePix).Ok?
    requires RoundHalfAway(outerScalePix) > 0
    ensures var a := MakeAnnulus(innerScalePix, outerScalePix).value;
      var c := RoundHalfAway(outerScalePix);
      a[c][c] == (if RoundHalfAway(innerScalePix) < 0 then 1 else 0)
  {
    var c := RoundHalfAway(outerScalePix);
    var inner := RoundHalfAway(innerScalePix);
    assert Dist2(c, c, c) == 0;
    if inner >= 0 {
      assert !(0 > inner * inner) by { assert inner * inner >= 0; }
    }
  }

  /** An inner radius at or beyond the outer one leaves the annulus empty. */
  lemma {:induction false} AnnulusEmptyWhenInnerTooLarge(innerScalePix: real, outerScalePix: real, y: nat, x: nat)
    requires MakeAnnulus(innerScalePix, outerScalePix).Ok?
    requires RoundHalfAway(innerScalePix) >= RoundHalfAway(outerScalePix)
    requires y < |MakeAnnulus(innerScalePix, outerScalePix).value|
    requires x < |MakeAnnulus(innerScalePix, outerScalePix).value[y]|
    ensures MakeAnnulus(innerScalePix, outerScalePix).value[y][x] == 0
  {
    var outer := RoundHalfAway(outerScalePix);
    var inner := RoundHalfAway(innerScalePix);
    var d2 := Dist2(y, x, outer);
    if outer > 0 {
      SquareMonotone(outer, inner);
    }
  }

  lemma {:induction false} SquareMonotone(a: int, b: int)
    requires 0 < a <= b
    ensures a * a <= b * b
  {
    assert a * a <= a * b <= b * b;
  }

  /** The annulus is symmetric under reflection through its centre. */
  lemma {:induction false} AnnulusSymmetric(innerScalePix: real, outerScalePix: real, y: nat, x: nat)
    requires MakeAnnulus(innerScalePix, outerScalePix).Ok?
    requires 0 < y < |MakeAnnulus(innerScalePix, outerScalePix).value|
    requires 0 < x < |MakeAnnulus(innerScalePix, outerScalePix).value[y]|
    ensures var a := MakeAnnulus(innerScalePix, outerScalePix).value;
      var c := RoundHalfAway(outerScalePix);
      a[y][x] == a[2 * c - y][2 * c - x]
  {
    var c := RoundHalfAway(outerScalePix);
    assert Dist2(y, x, c) == Dist2(2 * c - y, 2 * c - x, c);
  }

  // -------------------------------------------------------- thresholding

  /** The S/N value searched: negated when `invertMap` is set. */
  function Searched(v: real, invertMap: bool): real
  {
    if invertMap then -v else v
  }

  /** `np.greater(data, threshold)` as 0/1 after the optional inversion. */
  function SigPix(data: seq<seq<real>>, threshold: real, invertMap: bool): (s: seq<seq<int>>)
    ensures |s| == |data|
    ensures forall i :: 0 <= i < |data| ==> |s[i]| == |data[i]|
  {
    seq(|data|, i requires 0 <= i < |data| =>
      seq(|data[i]|, j requires 0 <= j < |data[i]| => if Searched(data[i][j], invertMap) > threshold then 1 else 0))
  }

  /**
   * A pixel is significant exactly when its (possibly negated) value is
   * strictly above the threshold; a pixel equal to the threshold is not, and
   * raising the threshold never adds a pixel.
   */
  lemma {:induction false} SigPixStrict(data: seq<seq<real>>, threshold: real, higher: real, invertMap: bool,
                                       i: nat, j: nat)
    requires i < |data| && j < |data[i]| && threshold <= higher
    ensures SigPix(data, threshold, invertMap)[i][j] == 1 <==> Searched(data[i][j], invertMap) > threshold
    ensures Searched(data[i][j], invertMap) == threshold ==> SigPix(data, threshold, invertMap)[i][j] == 0
    ensures SigPix(data, higher, invertMap)[i][j] <= SigPix(data, threshold, invertMap)[i][j]
  {
  }

  // ------------------------------------------------------- border window

  /** The (row, column) positions of the positive pixels of a mask, row by row. */
  function PositivePixels(mask: seq<seq<real>>): (ps: seq<(int, int)>)
    ensures forall k :: 0 <= k < |ps| ==>
      0 <= ps[k].0 < |mask| && 0 <= ps[k].1 < |mask[ps[k].0]| && mask[ps[k].0][ps[k].1] > 0.0
    ensures forall i, j :: 0 <= i < |mask| && 0 <= j < |mask[i]| && mask[i][j] > 0.0 ==> (i, j) in ps
    decreases |mask|
  {
    if |mask| == 0 then []
    else
      var n := |mask| - 1;
      assert forall i :: 0 <= i < n ==> mask[..n][i] == mask[i];
      PositivePixels(mask[..n]) + RowPixels(n, mask[n])
  }

  /** The positions `(n, j)` of the positive values of row `n`. */
  function RowPixels(n: int, row: seq<real>): (ps: seq<(int, int)>)
    ensures forall k :: 0 <= k < |ps| ==> ps[k].0 == n && 0 <= ps[k].1 < |row| && row[ps[k].1] > 0.0
    ensures forall j :: 0 <= j < |row| && row[j] > 0.0 ==> (n, j) in ps
    decreases |row|
  {
    if |row| == 0 then []
    else
      var last := |row| - 1;
      var prev := RowPixels(n, row[..last]);
      if row[last] > 0.0 then prev + [(n, last)] else prev
  }

  /** The columns and the rows of a list of positions. */
  function ColsOf(ps: seq<(int, int)>): (cols: seq<int>)
    ensures |cols| == |ps| && forall k :: 0 <= k < |ps| ==> cols[k] == ps[k].1
  {
    seq(|ps|, k requires 0 <= k < |ps| => ps[k].1)
  }

  function RowsOf(ps: seq<(int, int)>): (rows: seq<int>)
    ensures |rows| == |ps| && forall k :: 0 <= k < |ps| ==> rows[k] == ps[k].0
  {
    seq(|ps|, k requires 0 <= k < |ps| => ps[k].0)
  }

  function IMin(s: seq<int>): (m: int)
    requires |s| > 0
    ensures m in s && forall k :: 0 <= k < |s| ==> m <= s[k]
  {
    if |s| == 1 then s[0]
    else
      var r := IMin(s[..|s| - 1]);
      assert forall k :: 0 <= k < |s| - 1 ==> s[..|s| - 1][k] == s[k];
      if s[|s| - 1] < r then s[|s| - 1] else r
  }

  function IMax(s: seq<int>): (m: int)
    requires |s| > 0
    ensures m in s && forall k :: 0 <= k < |s| ==> s[k] <= m
  {
    if |s| == 1 then s[0]
    else
      var r := IMax(s[..|s| - 1]);
      assert forall k :: 0 <= k < |s| - 1 ==> s[..|s| - 1][k] == s[k];
      if s[|s| - 1] > r then s[|s| - 1] else r
  }

  /** Bounds `minX, maxX, minY, maxY` an object must lie strictly inside. */
  datatype Window = Window(minX: int, maxX: int, minY: int, maxY: int)

  /**
   * The bounding box of the positive area mask (or the whole map when there
   * is no mask or it sums to 0), shrunk by `rejectBorder` on every side;
   * `rejectBorder = None` counts as 0.
   */
  function BorderWindow(areaMask: Option<seq<seq<real>>>, height: nat, width: nat, rejectBorder: Option<int>)
    : (w: Window)
    ensures var b := rejectBorder.GetOr(0);
      (areaMask.None? || SumAll(areaMask.value) <= 0.0) ==>
        w == Window(b, width - 1 - b, b, height - 1 - b)
  {
    var b := rejectBorder.GetOr(0);
    if areaMask.Some? && SumAll(areaMask.value) > 0.0 then
      var m := areaMask.value;
      PositiveSomewhere(m);
      var ps := PositivePixels(m);
      Window(IMin(ColsOf(ps)) + b, IMax(ColsOf(ps)) - b, IMin(RowsOf(ps)) + b, IMax(RowsOf(ps)) - b)
    else Window(b, width - 1 - b, b, height - 1 - b)
  }

  /** A mask with a positive sum has a positive pixel. */
  lemma {:induction false} PositiveSomewhere(m: seq<seq<real>>)
    requires SumAll(m) > 0.0
    ensures |PositivePixels(m)| > 0
  {
    var i, j := PositivePixel(m);
    assert (i, j) in PositivePixels(m);
  }

  lemma {:induction false} PositivePixel(m: seq<seq<real>>) returns (i: nat, j: nat)
    requires SumAll(m) > 0.0
    ensures i < |m| && j < |m[i]| && m[i][j] > 0.0
  {
    SumAllIsSumOfRowSums(m);
    var rs := RowSums(m);
    i := PositiveEntry(rs);
    assert rs[i] == Sum(m[i]);
    j := PositiveEntry(m[i]);
  }

  /** A sequence with a positive sum has a positive entry. */
  lemma {:induction false} PositiveEntry(s: seq<real>) returns (k: nat)
    requires Sum(s) > 0.0
    ensures k < |s| && s[k] > 0.0
    decreases |s|
  {
    if s[|s| - 1] > 0.0 {
      k := |s| - 1;
    } else {
      k := PositiveEntry(s[..|s| - 1]);
    }
  }

  /** Every positive area-mask pixel lies in the unshrunk box. */
  lemma {:induction false} WindowIsBoundingBox(m: seq<seq<real>>, height: nat, width: nat, i: nat, j: nat)
    requires SumAll(m) > 0.0
    requires i < |m| && j < |m[i]| && m[i][j] > 0.0
    ensures var w := BorderWindow(Some(m), height, width, None);
      w.minX <= j <= w.maxX && w.minY <= i <= w.maxY
  {
    PositiveSomewhere(m);
    var ps := PositivePixels(m);
    var k :| 0 <= k < |ps| && ps[k] == (i, j);
    assert ColsOf(ps)[k] == j && RowsOf(ps)[k] == i;
  }

  /** `x > minX and x < maxX and y > minY and y < maxY`. */
  predicate Inside(w: Window, x: real, y: real)
  {
    x > w.minX as real && x < w.maxX as real && y > w.minY as real && y < w.maxY as real
  }

  /** A wider border never lets more objects in. */
  lemma {:induction false} WiderBorderStricter(areaMask: Option<seq<seq<real>>>, height: nat, width: nat,
                                              b1: int, b2: int, x: real, y: real)
    requires b1 <= b2
    requires Inside(BorderWindow(areaMask, height, width, Some(b2)), x, y)
    ensures Inside(BorderWindow(areaMask, height, width, Some(b1)), x, y)
  {
  }

  // ------------------------------------------------------------ catalogue

  /**
   * One segmented region of the thresholded map, as the labelling step
   * reports it: its number of significant pixels and its position (column
   * `x`, row `y`).
   */
  datatype Region = Region(numPix: real, x: real, y: real)

  /**
   * A catalogue entry. `columns` holds the measured quantities that later
   * steps add by name (`SNR`, `fixed_SNR`, `y_c`, `err_y_c`, ...).
   */
  datatype Entry = Entry(id: int, x: real, y: real, raDeg: real, decDeg: real, numSigPix: real,
                         template: string, columns: map<string, real>)

  /** Negative right ascensions are moved into [0, 360). */
  function WrapRA(ra: real): (r: real)
    ensures -360.0 <= ra < 360.0 ==> 0.0 <= r < 360.0
    ensures r == ra || r == ra + 360.0
  {
    if ra < 0.0 then 360.0 + ra else ra
  }

  /**
   * The point-source mask test as written: `psMaskMap != None` compares an
   * array element by element, and `if` on an array of more than one pixel
   * raises.
   */
  function PsMaskedAsWritten(psMask: Option<seq<seq<real>>>, x: real, y: real): (r: Result<bool, PhotError>)
    ensures psMask.Some? && |psMask.value| >= 2 ==> r == Err(AmbiguousTruthValue)
  {
    match psMask
    case None => Ok(false)
    case Some(m) =>
      if |m| >= 2 || (|m| == 1 && |m[0]| >= 2) then Err(AmbiguousTruthValue)
      else PsMasked(psMask, x, y)
  }

  /**
   * The point-source mask test as intended (`is not None`): an object is
   * masked when the mask pixel at its rounded position is positive.
   */
  function PsMasked(psMask: Option<seq<seq<real>>>, x: real, y: real): (r: Result<bool, PhotError>)
    ensures psMask.None? ==> r == Ok(false)
    ensures psMask.Some? && r.Ok? ==>
      var yi, xi := RoundHalfAway(y), RoundHalfAway(x);
      0 <= yi < |psMask.value| && 0 <= xi < |psMask.value[yi]| && (r.value <==> psMask.value[yi][xi] > 0.0)
  {
    match psMask
    case None => Ok(false)
    case Some(m) =>
      var yi, xi := RoundHalfAway(y), RoundHalfAway(x);
      if 0 <= yi < |m| && 0 <= xi < |m[yi]| then Ok(m[yi][xi] > 0.0) else Err(PixelOutOfRange)
  }

  /** A mask of many pixels makes the as-written test fail where the intended one answers. */
  lemma {:induction false} PsMaskFinding()
    ensures PsMaskedAsWritten(Some([[0.0], [0.0]]), 0.0, 0.0) == Err(AmbiguousTruthValue)
    ensures PsMasked(Some([[0.0], [0.0]]), 0.0, 0.0) == Ok(false)
  {
    assert RoundHalfAway(0.0) == 0;
  }

  /** The entry built for an accepted region. */
  function NewEntry(id: int, r: Region, key: string, pix2wcs: (real, real) -> (real, real),
                    snrAt: (real, real) -> real): Entry
  {
    var (ra, dec) := pix2wcs(r.x, r.y);
    Entry(id, r.x, r.y, WrapRA(ra), dec, r.numPix, key, map["SNR" := snrAt(r.y, r.x)])
  }

  /** A region is catalogued when it has enough pixels, lies inside the window and is not masked. */
  function Accept(r: Region, minObjPix: real, w: Window, psMask: Option<seq<seq<real>>>): Result<bool, PhotError>
  {
    if r.numPix > minObjPix && Inside(w, r.x, r.y) then
      var masked :- PsMasked(psMask, r.x, r.y);
      Ok(!masked)
    else Ok(false)
  }

  /** The catalogue `findObjects` builds for one map from its first `|regions|` regions. */
  function Catalogue(regions: seq<Region>, key: string, minObjPix: real, w: Window,
                     psMask: Option<seq<seq<real>>>, pix2wcs: (real, real) -> (real, real),
                     snrAt: (real, real) -> real): Result<seq<Entry>, PhotError>
    decreases |regions|
  {
    if |regions| == 0 then Ok([])
    else
      var n := |regions| - 1;
      var prev :- Catalogue(regions[..n], key, minObjPix, w, psMask, pix2wcs, snrAt);
      var keep :- Accept(regions[n], minObjPix, w, psMask);
      if keep then Ok(prev + [NewEntry(|prev| + 1, regions[n], key, pix2wcs, snrAt)]) else Ok(prev)
  }

  /** The regions without a mask lookup that pass the size and window tests, in order. */
  function Passing(regions: seq<Region>, minObjPix: real, w: Window): seq<Region>
    decreases |regions|
  {
    if |regions| == 0 then []
    else
      var n := |regions| - 1;
      var prev := Passing(regions[..n], minObjPix, w);
      if regions[n].numPix > minObjPix && Inside(w, regions[n].x, regions[n].y) then prev + [regions[n]] else prev
  }

  /**
   * What a catalogue holds: entries numbered 1, 2, ... in order, each from a
   * region with more than `minObjPix` pixels strictly inside the window,
   * tagged with the map key, its RA moved into [0, 360) and its S/N read at
   * its position; without a point-source mask the entries are exactly the
   * passing regions, in order.
   */
  lemma {:induction false} CatalogueContents(regions: seq<Region>, key: string, minObjPix: real, w: Window,
                                            psMask: Option<seq<seq<real>>>, pix2wcs: (real, real) -> (real, real),
                                            snrAt: (real, real) -> real)
    ensures var c := Catalogue(regions, key, minObjPix, w, psMask, pix2wcs, snrAt);
      c.Ok? ==>
        |c.value| <= |regions| &&
        forall k :: 0 <= k < |c.value| ==>
          var e := c.value[k];
          e.id == k + 1 && e.template == key && e.numSigPix > minObjPix && Inside(w, e.x, e.y) &&
          e.raDeg == WrapRA(pix2wcs(e.x, e.y).0) && e.decDeg == pix2wcs(e.x, e.y).1 &&
          e.columns == map["SNR" := snrAt(e.y, e.x)]
    ensures var c := Catalogue(regions, key, minObjPix, w, psMask, pix2wcs, snrAt);
      var p := Passing(regions, minObjPix, w);
      psMask.None? ==>
        c.Ok? && |c.value| == |p| &&
        forall k :: 0 <= k < |p| ==>
          c.value[k].x == p[k].x && c.value[k].y == p[k].y && c.value[k].numSigPix == p[k].numPix
    decreases |regions|
  {
    if |regions| > 0 {
      var n := |regions| - 1;
      CatalogueContents(regions[..n], key, minObjPix, w, psMask, pix2wcs, snrAt);
    }
  }

  /**
   * `findObjects` for one map: walks the regions, numbering accepted ones
   * with a running counter that starts at 1.
   */
  method FindObjects(regions: seq<Region>, key: string, minObjPix: real, w: Window,
                     psMask: Option<seq<seq<real>>>, pix2wcs: (real, real) -> (real, real),
                     snrAt: (real, real) -> real) returns (r: Result<seq<Entry>, PhotError>)
    ensures r == Catalogue(regions, key, minObjPix, w, psMask, pix2wcs, snrAt)
  {
    var catalog: seq<Entry> := [];
    var idNumCount := 1;
    var i := 0;
    while i < |regions|
      invariant 0 <= i <= |regions|
      invariant Catalogue(regions[..i], key, minObjPix, w, psMask, pix2wcs, snrAt) == Ok(catalog)
      invariant idNumCount == |catalog| + 1
    {
      assert regions[..i + 1][..i] == regions[..i];
      var keep := Accept(regions[i], minObjPix, w, psMask);
      if keep.Err? {
        CatalogueErrExtends(regions, i + 1, key, minObjPix, w, psMask, pix2wcs, snrAt);
        return Err(keep.error);
      }
      if keep.value {
        catalog := catalog + [NewEntry(idNumCount, regions[i], key, pix2wcs, snrAt)];
        idNumCount := idNumCount + 1;
      }
      i := i + 1;
    }
    assert regions[..|regions|] == regions;
    return Ok(catalog);
  }

  /** An error on a prefix of the regions is the error of the whole walk. */
  lemma {:induction false} CatalogueErrExtends(regions: seq<Region>, i: nat, key: string, minObjPix: real, w: Window,
                                              psMask: Option<seq<seq<real>>>, pix2wcs: (real, real) -> (real, real),
                                              snrAt: (real, real) -> real)
    requires i <= |regions|
    requires Catalogue(regions[..i], key, minObjPix, w, psMask, pix2wcs, snrAt).Err?
    ensures Catalogue(regions, key, minObjPix, w, psMask, pix2wcs, snrAt) ==
            Catalogue(regions[..i], key, minObjPix, w, psMask, pix2wcs, snrAt)
    decreases |regions| - i
  {
    if i < |regions| {
      assert regions[..i + 1][..i] == regions[..i];
      CatalogueErrExtends(regions, i + 1, key, minObjPix, w, psMask, pix2wcs, snrAt);
    } else {
      assert regions[..i] == regions;
    }
  }

  // --------------------------------------------------------- template key

  /** `s.split("#")[0]`. */
  function FirstField(s: string): (r: string)
    ensures |r| <= |s| && r == s[..|r|] && '#' !in r && (|r| < |s| ==> s[|r|] == '#')
  {
    if |s| == 0 || s[0] == '#' then "" else [s[0]] + FirstField(s[1..])
  }

  /** `s.split("#")[-1]`. */
  function LastField(s: string): (r: string)
    ensures |r| <= |s| && r == s[|s| - |r|..] && '#' !in r && (|r| < |s| ==> s[|s| - |r| - 1] == '#')
  {
    if |s| == 0 || s[|s| - 1] == '#' then "" else LastField(s[..|s| - 1]) + [s[|s| - 1]]
  }

  /** Key `k` holds the map of filter `template` for the same extension as `key`. */
  predicate TemplateMatch(k: string, template: string, key: string)
  {
    FirstField(k) == template && LastField(k) == LastField(key)
  }

  /** The test the search applies to each map key. */
  function Matches(template: string, key: string): string -> bool
  {
    k => TemplateMatch(k, template, key)
  }

  /** The position of the last of the first `n` keys that passes `test`, or -1 when none does. */
  function LastMatch(keys: seq<string>, n: nat, test: string -> bool): (i: int)
    requires n <= |keys|
    ensures -1 <= i < n
    ensures i >= 0 ==> test(keys[i])
    ensures forall j :: i < j < n ==> !test(keys[j])
  {
    if n == 0 then -1
    else if test(keys[n - 1]) then n - 1
    else LastMatch(keys, n - 1, test)
  }

  /** The map whose S/N values are read for the catalogue of `key`. */
  function TemplateKey(mapKeys: seq<string>, key: string, template: Option<string>): Result<string, PhotError>
  {
    match template
    case None => Ok(key)
    case Some(t) =>
      var i := LastMatch(mapKeys, |mapKeys|, Matches(t, key));
      if i < 0 then Err(NoTemplateKey) else Ok(mapKeys[i])
  }

  /** The search loop over the map keys: the last match wins. */
  method FindTemplateKey(mapKeys: seq<string>, key: string, template: Option<string>)
    returns (r: Result<string, PhotError>)
    ensures r == TemplateKey(mapKeys, key, template)
  {
    if template.None? {
      return Ok(key);
    }
    var found := -1;
    for i := 0 to |mapKeys|
      invariant found == LastMatch(mapKeys, i, Matches(template.value, key))
    {
      if TemplateMatch(mapKeys[i], template.value, key) {
        found := i;
      }
    }
    if found < 0 {
      return Err(NoTemplateKey);
    }
    return Ok(mapKeys[found]);
  }

  /**
   * The map of filter `t` for the extension of `key`, named `t#ext`, is
   * always found when `t` and the extension carry no `#`.
   */
  lemma {:induction false} TemplateKeyFound(mapKeys: seq<string>, key: string, t: string)
    requires '#' !in t
    requires t + "#" + LastField(key) in mapKeys
    ensures TemplateKey(mapKeys, key, Some(t)).Ok?
    ensures TemplateMatch(TemplateKey(mapKeys, key, Some(t)).value, t, key)
  {
    var k := t + "#" + LastField(key);
    KeyOfTemplate(t, key);
    var j :| 0 <= j < |mapKeys| && mapKeys[j] == k;
    var test := Matches(t, key);
    assert test(mapKeys[j]);
    LastMatchFound(mapKeys, test, j);
    var i := LastMatch(mapKeys, |mapKeys|, test);
    assert 0 <= i && test(mapKeys[i]);
    assert TemplateKey(mapKeys, key, Some(t)) == Ok(mapKeys[i]);
  }

  /** The key `t#ext` matches template `t` for the extension `ext` of `key`. */
  lemma {:induction false} KeyOfTemplate(t: string, key: string)
    requires '#' !in t
    ensures TemplateMatch(t + "#" + LastField(key), t, key)
  {
    FirstFieldOf(t, LastField(key));
    LastFieldOf(t, LastField(key));
  }

  /** A key that passes the test is at or before the one the search returns. */
  lemma {:induction false} LastMatchFound(keys: seq<string>, test: string -> bool, j: nat)
    requires j < |keys| && test(keys[j])
    ensures j <= LastMatch(keys, |keys|, test)
  {
  }

  lemma {:induction false} FirstFieldOf(a: string, b: string)
    requires '#' !in a
    ensures FirstField(a + "#" + b) == a
    decreases |a|
  {
    if |a| > 0 {
      assert (a + "#" + b)[1..] == a[1..] + "#" + b;
      FirstFieldOf(a[1..], b);
    }
  }

  lemma {:induction false} LastFieldOf(a: string, b: string)
    requires '#' !in b
    ensures LastField(a + "#" + b) == b
    decreases |b|
  {
    var s := a + "#" + b;
    if |b| > 0 {
      assert s[..|s| - 1] == a + "#" + b[..|b| - 1];
      LastFieldOf(a, b[..|b| - 1]);
    }
  }

  // ------------------------------------------------------------ S/N reads

  /**
   * An S/N map: its rows (already negated for a contamination test) and
   * width, and the spline through it when interpolation is used.
   */
  datatype SNMap = SNMap(data: seq<seq<real>>, width: nat, interpolator: Option<(real, real) -> real>)

  predicate Rectangular(m: SNMap)
  {
    forall i :: 0 <= i < |m.data| ==> |m.data[i]| == m.width
  }

  /**
   * The S/N `getSNValues` records for an object at (x, y): read from the map
   * when the rounded position lies strictly inside it (row 0 and column 0
   * excluded), 0 otherwise.
   */
  function ObjectSNR(m: SNMap, x: real, y: real): (snr: real)
    requires Rectangular(m)
  {
    var yi, xi := RoundHalfAway(y), RoundHalfAway(x);
    if 0 < xi < m.width && 0 < yi < |m.data| then
      if m.interpolator.Some? then m.interpolator.value(y, x) else m.data[yi][xi]
    else 0.0
  }

  /** Out-of-map positions get 0, pixel reads come from the rounded pixel. */
  lemma {:induction false} ObjectSNRCases(m: SNMap, x: real, y: real)
    requires Rectangular(m)
    ensures var yi, xi := RoundHalfAway(y), RoundHalfAway(x);
      (xi <= 0 || yi <= 0 || xi >= m.width || yi >= |m.data| ==> ObjectSNR(m, x, y) == 0.0) &&
      (0 < xi < m.width && 0 < yi < |m.data| && m.interpolator.None? ==> ObjectSNR(m, x, y) == m.data[yi][xi])
  {
  }

  /** `SNMap` must be 'file' or 'array'. */
  function CheckSNMapKind(kind: string): (r: Result<(), PhotError>)
    ensures r.Ok? <==> kind == "file" || kind == "array"
  {
    if kind == "file" || kind == "array" then Ok(()) else Err(UnknownSNMap(kind))
  }

  function WithColumn(e: Entry, col: string, v: real): Entry
  {
    e.(columns := e.columns[col := v])
  }

  /**
   * `getSNValues` for one catalogue: after the template key is found and the
   * map kind checked, every object gets `prefix + "SNR"` read from the
   * template's map; nothing else in the catalogue changes.
   */
  method GetSNValues(catalog: seq<Entry>, mapKeys: seq<string>, key: string, template: Option<string>,
                     kind: string, maps: map<string, SNMap>, prefix: string)
    returns (r: Result<seq<Entry>, PhotError>)
    requires forall k :: k in maps ==> Rectangular(maps[k])
    ensures TemplateKey(mapKeys, key, template).Err? ==> r == Err(TemplateKey(mapKeys, key, template).error)
    ensures TemplateKey(mapKeys, key, template).Ok? && CheckSNMapKind(kind).Err? ==> r == Err(UnknownSNMap(kind))
    ensures TemplateKey(mapKeys, key, template).Ok? && TemplateKey(mapKeys, key, template).value !in maps ==>
      r.Err?
    ensures TemplateKey(mapKeys, key, template).Ok? && CheckSNMapKind(kind).Ok? &&
            TemplateKey(mapKeys, key, template).value in maps ==>
            r.Ok?
    ensures r.Ok? ==>
      var m := maps[TemplateKey(mapKeys, key, template).value];
      |r.value| == |catalog| &&
      forall i :: 0 <= i < |catalog| ==>
        r.value[i] == WithColumn(catalog[i], prefix + "SNR", ObjectSNR(m, catalog[i].x, catalog[i].y))
  {
    var templateKey := FindTemplateKey(mapKeys, key, template);
    if templateKey.Err? {
      return Err(templateKey.error);
    }
    if kind != "file" && kind != "array" {
      return Err(UnknownSNMap(kind));
    }
    if templateKey.value !in maps {
      return Err(MissingColumn(templateKey.value));
    }
    var out := AddSNRColumn(catalog, maps[templateKey.value], prefix);
    return Ok(out);
  }

  /** Each object's entry with the column `prefix + "SNR"` set to the map's S/N at its position. */
  method AddSNRColumn(catalog: seq<Entry>, m: SNMap, prefix: string) returns (out: seq<Entry>)
    requires Rectangular(m)
    ensures |out| == |catalog|
    ensures forall i :: 0 <= i < |catalog| ==>
      out[i] == WithColumn(catalog[i], prefix + "SNR", ObjectSNR(m, catalog[i].x, catalog[i].y))
  {
    out := [];
    for i := 0 to |catalog|
      invariant |out| == i
      invariant forall j :: 0 <= j < i ==> out[j] == WithColumn(catalog[j], prefix + "SNR", ObjectSNR(m, catalog[j].x, catalog[j].y))
    {
      out := out + [WithColumn(catalog[i], prefix + "SNR", ObjectSNR(m, catalog[i].x, catalog[i].y))];
    }
  }

  // --------------------------------------------------------------- fluxes

  /**
   * The columns one map adds to an object's entry, by the map's units:
   * `yc` maps give `y_c` in units of 1e-4, its error `y_c / SNR`, the
   * temperature decrement at 148 GHz and its absolute error; `uK` maps give
   * the temperature and its signed error; `Y500` and `Jy/beam` are not
   * supported; other units add nothing. `fx148` is the SZ spectral factor at
   * 148 GHz. Error columns are written only for a nonzero S/N.
   */
  function FluxColumns(cols: map<string, real>, prefix: string, units: string, mapValue: real,
                       fx148: real, tcmb: real): (r: Result<map<string, real>, PhotError>)
    ensures units == "Y500" || units == "Jy/beam" ==> r == Err(UnsupportedUnits(units))
    ensures (units == "yc" || units == "uK") && prefix + "SNR" !in cols ==> r == Err(MissingColumn(prefix + "SNR"))
    ensures units != "yc" && units != "uK" && units != "Y500" && units != "Jy/beam" ==> r == Ok(cols)
    ensures r.Ok? ==>
      cols.Keys <= r.value.Keys &&
      forall k :: (k in cols && k != prefix + "y_c" && k != prefix + "err_y_c" && k != prefix + "deltaT_c" &&
                   k != prefix + "err_deltaT_c") ==> r.value[k] == cols[k]
  {
    if units == "Y500" || units == "Jy/beam" then Err(UnsupportedUnits(units))
    else if units == "yc" then
      if prefix + "SNR" !in cols then Err(MissingColumn(prefix + "SNR"))
      else
        var snr := cols[prefix + "SNR"];
        var yc := mapValue / 0.0001;
        var deltaTc := ConvertToDeltaT([mapValue], fx148, tcmb)[0];
        var withValues := cols[prefix + "y_c" := yc][prefix + "deltaT_c" := deltaTc];
        if snr == 0.0 then Ok(withValues)
        else Ok(withValues[prefix + "err_y_c" := yc / snr][prefix + "err_deltaT_c" := Abs(deltaTc / snr)])
    else if units == "uK" then
      if prefix + "SNR" !in cols then Err(MissingColumn(prefix + "SNR"))
      else
        var snr := cols[prefix + "SNR"];
        var withValue := cols[prefix + "deltaT_c" := mapValue];
        if snr == 0.0 then Ok(withValue) else Ok(withValue[prefix + "err_deltaT_c" := mapValue / snr])
    else Ok(cols)
  }

  /** Distinct column names for distinct suffixes under one prefix. */
  lemma {:induction false} PrefixedDistinct(prefix: string, a: string, b: string)
    requires a != b
    ensures prefix + a != prefix + b
  {
    assert (prefix + a)[|prefix|..] == a;
    assert (prefix + b)[|prefix|..] == b;
  }

  /**
   * From a `yc` map: `y_c` is the map value in units of 1e-4, `deltaT_c`
   * converts back to the same Compton y, and the errors are consistent with
   * the S/N (`err_y_c * SNR == y_c`, `err_deltaT_c = |deltaT_c / SNR|`, never
   * negative).
   */
  lemma {:induction false} YcColumns(cols: map<string, real>, prefix: string, mapValue: real, fx148: real, tcmb: real)
    requires prefix + "SNR" in cols && cols[prefix + "SNR"] != 0.0
    requires fx148 != 0.0 && tcmb != 0.0
    ensures var r := FluxColumns(cols, prefix, "yc", mapValue, fx148, tcmb);
      var snr := cols[prefix + "SNR"];
      r.Ok? &&
      prefix + "y_c" in r.value && prefix + "err_y_c" in r.value &&
      prefix + "deltaT_c" in r.value && prefix + "err_deltaT_c" in r.value &&
      r.value[prefix + "y_c"] == 10000.0 * mapValue &&
      r.value[prefix + "err_y_c"] * snr == r.value[prefix + "y_c"] &&
      ConvertToY([r.value[prefix + "deltaT_c"]], fx148, tcmb)[0] == mapValue &&
      r.value[prefix + "err_deltaT_c"] >= 0.0 &&
      r.value[prefix + "err_deltaT_c"] == Abs(r.value[prefix + "deltaT_c"] / snr)
  {
    PrefixedDistinct(prefix, "y_c", "deltaT_c");
    PrefixedDistinct(prefix, "y_c", "err_y_c");
    PrefixedDistinct(prefix, "y_c", "err_deltaT_c");
    PrefixedDistinct(prefix, "deltaT_c", "err_y_c");
    PrefixedDistinct(prefix, "deltaT_c", "err_deltaT_c");
    PrefixedDistinct(prefix, "err_y_c", "err_deltaT_c");
    var snr := cols[prefix + "SNR"];
    var yc := mapValue / 0.0001;
    assert yc * snr / snr == yc by { MulDivCancel(yc, snr, 1.0); }
    YOfDeltaT([mapValue], fx148, tcmb);
  }

  /** From a `uK` map: `deltaT_c` is the map value and its error keeps the sign of `deltaT_c / SNR`. */
  lemma {:induction false} MicroKColumns(cols: map<string, real>, prefix: string, mapValue: real, fx148: real, tcmb: real)
    requires prefix + "SNR" in cols && cols[prefix + "SNR"] != 0.0
    ensures var r := FluxColumns(cols, prefix, "uK", mapValue, fx148, tcmb);
      var snr := cols[prefix + "SNR"];
      r.Ok? && prefix + "deltaT_c" in r.value && prefix + "err_deltaT_c" in r.value &&
      r.value[prefix + "deltaT_c"] == mapValue &&
      r.value[prefix + "err_deltaT_c"] * snr == mapValue &&
      (mapValue < 0.0 && snr > 0.0 ==> r.value[prefix + "err_deltaT_c"] < 0.0)
  {
    PrefixedDistinct(prefix, "deltaT_c", "err_deltaT_c");
    var snr := cols[prefix + "SNR"];
    MulDivCancel(mapValue / snr, snr, 1.0);
  }

  /**
   * The maps an object's fluxes are read from, with the prefix of the
   * columns each one fills: the map itself, then the fixed-scale map of
   * `photFilter` when one is configured.
   */
  function FluxSources(mapValueAt: (real, real) -> real, photValueAt: Option<(real, real) -> real>)
    : (r: seq<(string, (real, real) -> real)>)
    ensures |r| == (if photValueAt.Some? then 2 else 1) && r[0].0 == ""
    ensures photValueAt.Some? ==> r[1].0 == "fixed_"
  {
    [("", mapValueAt)] + (if photValueAt.Some? then [("fixed_", photValueAt.value)] else [])
  }

  /** The columns of one object after each source in turn, read at (x, y). */
  function ApplySources(cols: map<string, real>, sources: seq<(string, (real, real) -> real)>, units: string,
                        x: real, y: real, fx148: real, tcmb: real): Result<map<string, real>, PhotError>
    decreases |sources|
  {
    if |sources| == 0 then Ok(cols)
    else
      var n := |sources| - 1;
      var prev :- ApplySources(cols, sources[..n], units, x, y, fx148, tcmb);
      FluxColumns(prev, sources[n].0, units, sources[n].1(y, x), fx148, tcmb)
  }

  /** An object of another template is left alone; one of this map gets its flux columns. */
  function MeasuredEntry(e: Entry, key: string, units: string, sources: seq<(string, (real, real) -> real)>,
                         fx148: real, tcmb: real): Result<Entry, PhotError>
  {
    if e.template != key then Ok(e)
    else
      var cols :- ApplySources(e.columns, sources, units, e.x, e.y, fx148, tcmb);
      Ok(e.(columns := cols))
  }

  /** `measureFluxes` over the catalogue of one map. */
  function MeasuredCatalogue(catalog: seq<Entry>, key: string, units: string,
                             sources: seq<(string, (real, real) -> real)>, fx148: real, tcmb: real)
    : Result<seq<Entry>, PhotError>
    decreases |catalog|
  {
    if |catalog| == 0 then Ok([])
    else
      var n := |catalog| - 1;
      var prev :- MeasuredCatalogue(catalog[..n], key, units, sources, fx148, tcmb);
      var e :- MeasuredEntry(catalog[n], key, units, sources, fx148, tcmb);
      Ok(prev + [e])
  }

  /**
   * Measuring fluxes keeps the catalogue's objects, order, ids, positions
   * and templates, changes only the columns of objects found in this map,
   * and never removes a column.
   */
  lemma {:induction false} MeasuredKeepsObjects(catalog: seq<Entry>, key: string, units: string,
                                               sources: seq<(string, (real, real) -> real)>, fx148: real, tcmb: real)
    ensures var r := MeasuredCatalogue(catalog, key, units, sources, fx148, tcmb);
      r.Ok? ==>
        |r.value| == |catalog| &&
        forall k :: 0 <= k < |catalog| ==>
          r.value[k] == catalog[k].(columns := r.value[k].columns) &&
          catalog[k].columns.Keys <= r.value[k].columns.Keys &&
          (catalog[k].template != key ==> r.value[k] == catalog[k])
    decreases |catalog|
  {
    if |catalog| > 0 {
      var n := |catalog| - 1;
      MeasuredKeepsObjects(catalog[..n], key, units, sources, fx148, tcmb);
      var e := MeasuredEntry(catalog[n], key, units, sources, fx148, tcmb);
      if e.Ok? && catalog[n].template == key {
        SourcesKeepColumns(catalog[n].columns, sources, units, catalog[n].x, catalog[n].y, fx148, tcmb);
      }
    }
  }

  lemma {:induction false} SourcesKeepColumns(cols: map<string, real>, sources: seq<(string, (real, real) -> real)>,
                                             units: string, x: real, y: real, fx148: real, tcmb: real)
    ensures var r := ApplySources(cols, sources, units, x, y, fx148, tcmb);
      r.Ok? ==> cols.Keys <= r.value.Keys
    decreases |sources|
  {
    if |sources| > 0 {
      SourcesKeepColumns(cols, sources[..|sources| - 1], units, x, y, fx148, tcmb);
    }
  }

  /** Units other than the four named ones leave every object untouched. */
  lemma {:induction false} OtherUnitsNoChange(catalog: seq<Entry>, key: string, units: string,
                                             sources: seq<(string, (real, real) -> real)>, fx148: real, tcmb: real)
    requires units != "yc" && units != "uK" && units != "Y500" && units != "Jy/beam"
    ensures MeasuredCatalogue(catalog, key, units, sources, fx148, tcmb) == Ok(catalog)
    decreases |catalog|
  {
    if |catalog| > 0 {
      var n := |catalog| - 1;
      var e := catalog[n];
      assert MeasuredCatalogue(catalog[..n], key, units, sources, fx148, tcmb) == Ok(catalog[..n]) by {
        OtherUnitsNoChange(catalog[..n], key, units, sources, fx148, tcmb);
      }
      assert MeasuredEntry(e, key, units, sources, fx148, tcmb) == Ok(e) by {
        OtherUnitsSources(e.columns, sources, units, e.x, e.y, fx148, tcmb);
        assert e.(columns := e.columns) == e;
      }
      assert catalog[..n] + [e] == catalog;
    }
  }

  lemma {:induction false} OtherUnitsSources(cols: map<string, real>, sources: seq<(string, (real, real) -> real)>,
                                            units: string, x: real, y: real, fx148: real, tcmb: real)
    requires units != "yc" && units != "uK" && units != "Y500" && units != "Jy/beam"
    ensures ApplySources(cols, sources, units, x, y, fx148, tcmb) == Ok(cols)
    decreases |sources|
  {
    if |sources| > 0 {
      OtherUnitsSources(cols, sources[..|sources| - 1], units, x, y, fx148, tcmb);
    }
  }

  /** The loop over the objects of one map. */
  method MeasureFluxes(catalog: seq<Entry>, key: string, units: string, mapValueAt: (real, real) -> real,
                       photValueAt: Option<(real, real) -> real>, fx148: real, tcmb: real)
    returns (r: Result<seq<Entry>, PhotError>)
    ensures r == MeasuredCatalogue(catalog, key, units, FluxSources(mapValueAt, photValueAt), fx148, tcmb)
  {
    var sources := FluxSources(mapValueAt, photValueAt);
    var out: seq<Entry> := [];
    for i := 0 to |catalog|
      invariant MeasuredCatalogue(catalog[..i], key, units, sources, fx148, tcmb) == Ok(out)
    {
      assert catalog[..i + 1][..i] == catalog[..i];
      var obj := catalog[i];
      if key == obj.template {
        var cols := MeasureObject(obj.columns, sources, units, obj.x, obj.y, fx148, tcmb);
        if cols.Err? {
          MeasuredErrExtends(catalog, i + 1, key, units, sources, fx148, tcmb);
          return Err(cols.error);
        }
        obj := obj.(columns := cols.value);
      }
      out := out + [obj];
    }
    assert catalog[..|catalog|] == catalog;
    return Ok(out);
  }

  /** The loop over the maps (and their prefixes) for one object. */
  method MeasureObject(cols: map<string, real>, sources: seq<(string, (real, real) -> real)>, units: string,
                       x: real, y: real, fx148: real, tcmb: real) returns (r: Result<map<string, real>, PhotError>)
    ensures r == ApplySources(cols, sources, units, x, y, fx148, tcmb)
  {
    var current := cols;
    for i := 0 to |sources|
      invariant ApplySources(cols, sources[..i], units, x, y, fx148, tcmb) == Ok(current)
    {
      assert sources[..i + 1][..i] == sources[..i];
      var next := FluxColumns(current, sources[i].0, units, sources[i].1(y, x), fx148, tcmb);
      if next.Err? {
        SourcesErrExtends(cols, sources, i + 1, units, x, y, fx148, tcmb);
        return Err(next.error);
      }
      current := next.value;
    }
    assert sources[..|sources|] == sources;
    return Ok(current);
  }

  lemma {:induction false} MeasuredErrExtends(catalog: seq<Entry>, i: nat, key: string, units: string,
                                             sources: seq<(string, (real, real) -> real)>, fx148: real, tcmb: real)
    requires i <= |catalog|
    requires MeasuredCatalogue(catalog[..i], key, units, sources, fx148, tcmb).Err?
    ensures MeasuredCatalogue(catalog, key, units, sources, fx148, tcmb) ==
            MeasuredCatalogue(catalog[..i], key, units, sources, fx148, tcmb)
    decreases |catalog| - i
  {
    if i < |catalog| {
      assert catalog[..i + 1][..i] == catalog[..i];
      MeasuredErrExtends(catalog, i + 1, key, units, sources, fx148, tcmb);
    } else {
      assert catalog[..i] == catalog;
    }
  }

  lemma {:induction false} SourcesErrExtends(cols: map<string, real>, sources: seq<(string, (real, real) -> real)>,
                                            i: nat, units: string, x: real, y: real, fx148: real, tcmb: real)
    requires i <= |sources|
    requires ApplySources(cols, sources[..i], units, x, y, fx148, tcmb).Err?
    ensures ApplySources(cols, sources, units, x, y, fx148, tcmb) == ApplySources(cols, sources[..i], units, x, y, fx148, tcmb)
    decreases |sources| - i
  {
    if i < |sources| {
      assert sources[..i + 1][..i] == sources[..i];
      SourcesErrExtends(cols, sources, i + 1, units, x, y, fx148, tcmb);
    } else {
      assert sources[..i] == sources;
    }
  }
}
