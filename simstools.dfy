/**
 * The simulation bookkeeping of nemo's `simsTools.py`: reading the input
 * simulation catalogue, cross-matching detections against it and against
 * fake sources, the cumulative contamination estimate from inverted maps,
 * the cuts deciding which simulated objects get an aperture flux, and the
 * per-run recovery counters of the fake-source simulations.
 */
module SimsTools {
  import opened Common
  import opened Binning

  datatype SimError =
    | TooFewFields(line: string)       // IndexError on `bits[i]`
    | NotANumber(field: string)        // ValueError from `float`
    | EmptyCatalogue                   // `.min()` of no separations
    | MissingZRange                    // `zRange[0]` with `zRange = None`
    | ValueNotListed(value: real)      // `valuesList.index` of an absent value

  // -------------------------------------------------------- line parsing

  /** The characters `str.split()` splits on. */
  predicate IsSpace(c: char)
  {
    c == ' ' || c == '\t' || c == '\n' || c == '\r' || c as int == 11 || c as int == 12
  }

  predicate NoSpace(w: string)
  {
    forall i :: 0 <= i < |w| ==> !IsSpace(w[i])
  }

  /** The longest prefix of `s` without whitespace. */
  function Word(s: string): (w: string)
    ensures |w| <= |s| && w == s[..|w|] && NoSpace(w)
    ensures |w| < |s| ==> IsSpace(s[|w|])
    ensures |s| > 0 && !IsSpace(s[0]) ==> |w| > 0
  {
    if |s| == 0 || IsSpace(s[0]) then "" else [s[0]] + Word(s[1..])
  }

  /** `s.split()`: the maximal runs of non-whitespace characters, in order. */
  function Fields(s: string): (r: seq<string>)
    ensures forall k :: 0 <= k < |r| ==> |r[k]| > 0 && NoSpace(r[k])
    decreases |s|
  {
    if |s| == 0 then []
    else if IsSpace(s[0]) then Fields(s[1..])
    else
      var w := Word(s);
      [w] + Fields(s[|w|..])
  }

  /** Words joined by single spaces, as a catalogue line writes its columns. */
  function JoinSpaced(ws: seq<string>): string
    decreases |ws|
  {
    if |ws| == 0 then "" else if |ws| == 1 then ws[0] else ws[0] + " " + JoinSpaced(ws[1..])
  }

  /** Splitting a line written as space-separated columns gives back the columns. */
  lemma {:induction false} FieldsOfJoined(ws: seq<string>)
    requires forall k :: 0 <= k < |ws| ==> |ws[k]| > 0 && NoSpace(ws[k])
    ensures Fields(JoinSpaced(ws)) == ws
    decreases |ws|
  {
    if |ws| == 1 {
      WordOf(ws[0], "");
      assert ws[0] + "" == ws[0];
      assert !IsSpace(ws[0][0]);
      assert JoinSpaced(ws) == ws[0];
      assert ws[0][|ws[0]|..] == "";
    } else if |ws| > 1 {
      var rest := " " + JoinSpaced(ws[1..]);
      var s := ws[0] + rest;
      assert JoinSpaced(ws) == s;
      assert !IsSpace(ws[0][0]) && s[0] == ws[0][0];
      WordOf(ws[0], rest);
      assert s[|ws[0]|..] == rest;
      assert rest[1..] == JoinSpaced(ws[1..]);
      FieldsOfJoined(ws[1..]);
    }
  }

  lemma {:induction false} WordOf(w: string, rest: string)
    requires NoSpace(w)
    requires |rest| == 0 || IsSpace(rest[0])
    ensures Word(w + rest) == w
    decreases |w|
  {
    if |w| > 0 {
      assert (w + rest)[1..] == w[1..] + rest;
      WordOf(w[1..], rest);
    } else {
      assert w + rest == rest;
    }
  }

  /** An object of the input simulation catalogue. */
  datatype SimObject = SimObject(id: int, raDeg: real, decDeg: real, z: real, mvir: real, rvirMpc: real,
                                 catalogFlux: real, columns: map<string, real>)

  /** A line holds an object when it is longer than 3 characters and is not a comment. */
  predicate IsRecord(line: string)
  {
    |line| > 3 && line[0] != '#'
  }

  /** How many lines hold an object. */
  function RecordCount(lines: seq<string>): nat
    decreases |lines|
  {
    if |lines| == 0 then 0
    else RecordCount(lines[..|lines| - 1]) + (if IsRecord(lines[|lines| - 1]) then 1 else 0)
  }

  /** `float(bits[i])`, with `parseReal` standing for Python's `float`. */
  function FieldValue(line: string, bits: seq<string>, i: nat, parseReal: string -> Option<real>)
    : (r: Result<real, SimError>)
    ensures i >= |bits| ==> r == Err(TooFewFields(line))
    ensures i < |bits| ==> (r.Ok? <==> parseReal(bits[i]).Some?)
  {
    if i >= |bits| then Err(TooFewFields(line))
    else match parseReal(bits[i])
      case None => Err(NotANumber(bits[i]))
      case Some(v) => Ok(v)
  }

  /** The object of one record line: columns RA, dec, z, Mvir, RvirMpc, flux, read in the source's order. */
  function ParseLine(line: string, id: int, parseReal: string -> Option<real>): Result<SimObject, SimError>
  {
    var bits := Fields(line);
    var z :- FieldValue(line, bits, 2, parseReal);
    var ra :- FieldValue(line, bits, 0, parseReal);
    var dec :- FieldValue(line, bits, 1, parseReal);
    var mvir :- FieldValue(line, bits, 3, parseReal);
    var rvir :- FieldValue(line, bits, 4, parseReal);
    var flux :- FieldValue(line, bits, 5, parseReal);
    Ok(SimObject(id, ra, dec, z, mvir, rvir, flux, map[]))
  }

  /**
   * A line of six space-separated numbers parses to an object holding those
   * numbers in catalogue order.
   */
  lemma {:induction false} ParseLineRoundTrip(ws: seq<string>, vals: seq<real>, id: int, parseReal: string -> Option<real>)
    requires |ws| == 6 && |vals| == 6
    requires forall k :: 0 <= k < 6 ==> |ws[k]| > 0 && NoSpace(ws[k]) && parseReal(ws[k]) == Some(vals[k])
    ensures ParseLine(JoinSpaced(ws), id, parseReal) ==
            Ok(SimObject(id, vals[0], vals[1], vals[2], vals[3], vals[4], vals[5], map[]))
  {
    FieldsOfJoined(ws);
  }

  /**
   * The objects `parseInputSimCatalog` keeps from the lines: every record line
   * takes the next id, and only objects inside the map (`inImage`) are kept.
   */
  function SimCatalogue(lines: seq<string>, inImage: (real, real) -> bool, parseReal: string -> Option<real>)
    : Result<seq<SimObject>, SimError>
    decreases |lines|
  {
    if |lines| == 0 then Ok([])
    else
      var n := |lines| - 1;
      var prev :- SimCatalogue(lines[..n], inImage, parseReal);
      if !IsRecord(lines[n]) then Ok(prev)
      else
        var o :- ParseLine(lines[n], RecordCount(lines), parseReal);
        if inImage(o.raDeg, o.decDeg) then Ok(prev + [o]) else Ok(prev)
  }

  /**
   * Ids of kept objects are strictly increasing and lie in 1..(number of
   * record lines); when every object is inside the map they are exactly
   * 1, 2, ... with one object per record line.
   */
  lemma {:induction false} SimCatalogueIds(lines: seq<string>, inImage: (real, real) -> bool,
                                          parseReal: string -> Option<real>)
    ensures var r := SimCatalogue(lines, inImage, parseReal);
      r.Ok? ==>
        |r.value| <= RecordCount(lines) &&
        (forall k :: 0 <= k < |r.value| ==> 1 <= r.value[k].id <= RecordCount(lines)) &&
        (forall i, j :: 0 <= i < j < |r.value| ==> r.value[i].id < r.value[j].id)
    ensures var r := SimCatalogue(lines, inImage, parseReal);
      (r.Ok? && forall ra, dec :: inImage(ra, dec)) ==>
        |r.value| == RecordCount(lines) && forall k :: 0 <= k < |r.value| ==> r.value[k].id == k + 1
    decreases |lines|
  {
    if |lines| > 0 {
      SimCatalogueIds(lines[..|lines| - 1], inImage, parseReal);
    }
  }

  /** The loop over the lines with its running `idNum`. */
  method ParseInputSimCatalog(lines: seq<string>, inImage: (real, real) -> bool, parseReal: string -> Option<real>)
    returns (r: Result<seq<SimObject>, SimError>)
    ensures r == SimCatalogue(lines, inImage, parseReal)
  {
    var catalog: seq<SimObject> := [];
    var idNum := 0;
    for i := 0 to |lines|
      invariant SimCatalogue(lines[..i], inImage, parseReal) == Ok(catalog)
      invariant idNum == RecordCount(lines[..i])
    {
      assert lines[..i + 1][..i] == lines[..i];
      var line := lines[i];
      if IsRecord(line) {
        idNum := idNum + 1;
        var o := ParseLine(line, idNum, parseReal);
        if o.Err? {
          SimCatalogueErrExtends(lines, i + 1, inImage, parseReal);
          return Err(o.error);
        }
        if inImage(o.value.raDeg, o.value.decDeg) {
          catalog := catalog + [o.value];
        }
      }
    }
    assert lines[..|lines|] == lines;
    return Ok(catalog);
  }

  lemma {:induction false} SimCatalogueErrExtends(lines: seq<string>, i: nat, inImage: (real, real) -> bool,
                                                 parseReal: string -> Option<real>)
    requires i <= |lines|
    requires SimCatalogue(lines[..i], inImage, parseReal).Err?
    ensures SimCatalogue(lines, inImage, parseReal) == SimCatalogue(lines[..i], inImage, parseReal)
    decreases |lines| - i
  {
    if i < |lines| {
      assert lines[..i + 1][..i] == lines[..i];
      SimCatalogueErrExtends(lines, i + 1, inImage, parseReal);
    } else {
      assert lines[..i] == lines;
    }
  }

  // ------------------------------------------------------------ matching

  /** The first position holding the smallest value (`np.equal(rs, rs.min()).nonzero()[0][0]`). */
  function FirstMin(rs: seq<real>): (i: nat)
    requires |rs| > 0
    ensures i < |rs|
    ensures forall j :: 0 <= j < |rs| ==> rs[i] <= rs[j]
    ensures forall j :: 0 <= j < i ==> rs[j] > rs[i]
    decreases |rs|
  {
    if |rs| == 1 then 0
    else
      var n := |rs| - 1;
      var k := FirstMin(rs[..n]);
      assert forall j :: 0 <= j < n ==> rs[..n][j] == rs[j];
      if rs[n] < rs[k] then n else k
  }

  /** Separations (degrees) from (ra, dec) to each position; `sep` is the angular-separation routine. */
  function Separations(ra: real, dec: real, positions: seq<(real, real)>, sep: (real, real, real, real) -> real)
    : (rs: seq<real>)
    ensures |rs| == |positions|
  {
    seq(|positions|, j requires 0 <= j < |positions| => sep(ra, dec, positions[j].0, positions[j].1))
  }

  /** What `simpleCatalogMatch` records on a primary object. */
  datatype Recovery = Recovery(recovered: bool, recoveredMatch: Option<nat>)

  /** The primary object at (ra, dec) is recovered by the nearest secondary object when closer than the radius. */
  function MatchOne(ra: real, dec: real, secondary: seq<(real, real)>, matchRadiusArcmin: real,
                    sep: (real, real, real, real) -> real): Recovery
    requires |secondary| > 0
  {
    var rs := Separations(ra, dec, secondary, sep);
    var i := FirstMin(rs);
    if rs[i] < matchRadiusArcmin / 60.0 then Recovery(true, Some(i)) else Recovery(false, None)
  }

  /** `simpleCatalogMatch`: one `Recovery` per primary object; no secondary objects is an error. */
  function SimpleMatch(primary: seq<(real, real)>, secondary: seq<(real, real)>, matchRadiusArcmin: real,
                       sep: (real, real, real, real) -> real): (r: Result<seq<Recovery>, SimError>)
    ensures r.Err? <==> |primary| > 0 && |secondary| == 0
    ensures r.Ok? ==> |r.value| == |primary|
  {
    if |primary| > 0 && |secondary| == 0 then Err(EmptyCatalogue)
    else if |primary| == 0 then Ok([])
    else Ok(seq(|primary|, k requires 0 <= k < |primary| =>
      MatchOne(primary[k].0, primary[k].1, secondary, matchRadiusArcmin, sep)))
  }

  /**
   * A primary object is recovered exactly when some secondary object lies
   * within `matchRadiusArcmin / 60` degrees, and then its match is the
   * first of the nearest secondary objects.
   */
  lemma {:induction false} RecoveredIffClose(primary: seq<(real, real)>, secondary: seq<(real, real)>,
                                            matchRadiusArcmin: real, sep: (real, real, real, real) -> real, k: nat)
    requires |secondary| > 0 && k < |primary|
    ensures var r := SimpleMatch(primary, secondary, matchRadiusArcmin, sep).value[k];
      var rs := Separations(primary[k].0, primary[k].1, secondary, sep);
      (r.recovered <==> exists j :: 0 <= j < |secondary| && rs[j] < matchRadiusArcmin / 60.0) &&
      (r.recovered <==> r.recoveredMatch.Some?) &&
      (r.recoveredMatch.Some? ==>
        var m := r.recoveredMatch.value;
        m < |secondary| && (forall j :: 0 <= j < |secondary| ==> rs[m] <= rs[j]) &&
        forall j :: 0 <= j < m ==> rs[j] > rs[m])
  {
    var rs := Separations(primary[k].0, primary[k].1, secondary, sep);
    var i := FirstMin(rs);
    assert SimpleMatch(primary, secondary, matchRadiusArcmin, sep).value[k] ==
           MatchOne(primary[k].0, primary[k].1, secondary, matchRadiusArcmin, sep);
    if exists j :: 0 <= j < |secondary| && rs[j] < matchRadiusArcmin / 60.0 {
      var j :| 0 <= j < |secondary| && rs[j] < matchRadiusArcmin / 60.0;
      assert rs[i] <= rs[j];
    }
  }

  /** The loop over the primary objects. */
  method SimpleCatalogMatch(primary: seq<(real, real)>, secondary: seq<(real, real)>, matchRadiusArcmin: real,
                            sep: (real, real, real, real) -> real) returns (r: Result<seq<Recovery>, SimError>)
    ensures r == SimpleMatch(primary, secondary, matchRadiusArcmin, sep)
  {
    var out: seq<Recovery> := [];
    for k := 0 to |primary|
      invariant |out| == k
      invariant k > 0 ==> |secondary| > 0
      invariant forall m :: 0 <= m < k ==> out[m] == MatchOne(primary[m].0, primary[m].1, secondary, matchRadiusArcmin, sep)
    {
      if |secondary| == 0 {
        return Err(EmptyCatalogue);
      }
      var rs := Separations(primary[k].0, primary[k].1, secondary, sep);
      var rMinIndex := FirstMin(rs);
      var rec := Recovery(false, None);
      if rs[rMinIndex] < matchRadiusArcmin / 60.0 {
        rec := Recovery(true, Some(rMinIndex));
      }
      out := out + [rec];
    }
    if |primary| > 0 {
      assert out == SimpleMatch(primary, secondary, matchRadiusArcmin, sep).value;
    }
    return Ok(out);
  }

  /** The input-simulation properties `matchAgainstSimCatalog` copies onto a detection. */
  datatype SimMatch = SimMatch(mvir: Option<real>, z: Option<real>, rvirMpc: Option<real>, flux: Option<real>)

  function PositionsOf(sims: seq<SimObject>): (p: seq<(real, real)>)
    ensures |p| == |sims|
  {
    seq(|sims|, j requires 0 <= j < |sims| => (sims[j].raDeg, sims[j].decDeg))
  }

  function SimMatchOne(ra: real, dec: real, sims: seq<SimObject>, sep: (real, real, real, real) -> real,
                       xmatchRadiusDeg: real, simFluxKey: string): SimMatch
    requires |sims| > 0
  {
    var rs := Separations(ra, dec, PositionsOf(sims), sep);
    var best := sims[FirstMin(rs)];
    if rs[FirstMin(rs)] < xmatchRadiusDeg then
      SimMatch(Some(best.mvir), Some(best.z), Some(best.rvirMpc),
               if simFluxKey in best.columns then Some(best.columns[simFluxKey]) else None)
    else SimMatch(None, None, None, None)
  }

  /** `matchAgainstSimCatalog`: one `SimMatch` per detection; an empty simulation catalogue is an error. */
  function SimMatches(catalog: seq<(real, real)>, sims: seq<SimObject>, sep: (real, real, real, real) -> real,
                      xmatchRadiusDeg: real, simFluxKey: string): (r: Result<seq<SimMatch>, SimError>)
    ensures r.Err? <==> |catalog| > 0 && |sims| == 0
    ensures r.Ok? ==> |r.value| == |catalog|
  {
    if |catalog| > 0 && |sims| == 0 then Err(EmptyCatalogue)
    else if |catalog| == 0 then Ok([])
    else Ok(seq(|catalog|, k requires 0 <= k < |catalog| =>
      SimMatchOne(catalog[k].0, catalog[k].1, sims, sep, xmatchRadiusDeg, simFluxKey)))
  }

  /**
   * A detection closer than the crossmatch radius to some simulated object
   * gets Mvir, z and RvirMpc of the first nearest one, and its flux exactly
   * when that object carries the flux column; otherwise all four are None.
   */
  lemma {:induction false} SimMatchContents(catalog: seq<(real, real)>, sims: seq<SimObject>,
                                           sep: (real, real, real, real) -> real, xmatchRadiusDeg: real,
                                           simFluxKey: string, k: nat)
    requires |sims| > 0 && k < |catalog|
    ensures var m := SimMatches(catalog, sims, sep, xmatchRadiusDeg, simFluxKey).value[k];
      var rs := Separations(catalog[k].0, catalog[k].1, PositionsOf(sims), sep);
      var close := exists j :: 0 <= j < |sims| && rs[j] < xmatchRadiusDeg;
      (m.mvir.Some? <==> close) && (m.z.Some? <==> close) && (m.rvirMpc.Some? <==> close) &&
      (!close ==> m.flux.None?) &&
      (close ==>
        exists b :: 0 <= b < |sims| && (forall j :: 0 <= j < |sims| ==> rs[b] <= rs[j]) &&
          m == SimMatch(Some(sims[b].mvir), Some(sims[b].z), Some(sims[b].rvirMpc),
                        if simFluxKey in sims[b].columns then Some(sims[b].columns[simFluxKey]) else None))
  {
    var rs := Separations(catalog[k].0, catalog[k].1, PositionsOf(sims), sep);
    var i := FirstMin(rs);
    assert SimMatches(catalog, sims, sep, xmatchRadiusDeg, simFluxKey).value[k] ==
           SimMatchOne(catalog[k].0, catalog[k].1, sims, sep, xmatchRadiusDeg, simFluxKey);
    if exists j :: 0 <= j < |sims| && rs[j] < xmatchRadiusDeg {
      var j :| 0 <= j < |sims| && rs[j] < xmatchRadiusDeg;
      assert rs[i] <= rs[j];
      assert rs[i] < xmatchRadiusDeg;
    }
  }

  /** The loop over the detections. */
  method MatchAgainstSimCatalog(catalog: seq<(real, real)>, sims: seq<SimObject>, sep: (real, real, real, real) -> real,
                                xmatchRadiusDeg: real, simFluxKey: string) returns (r: Result<seq<SimMatch>, SimError>)
    ensures r == SimMatches(catalog, sims, sep, xmatchRadiusDeg, simFluxKey)
  {
    var positions := PositionsOf(sims);
    var out: seq<SimMatch> := [];
    for k := 0 to |catalog|
      invariant |out| == k
      invariant k > 0 ==> |sims| > 0
      invariant forall m :: 0 <= m < k ==> out[m] == SimMatchOne(catalog[m].0, catalog[m].1, sims, sep, xmatchRadiusDeg, simFluxKey)
    {
      if |sims| == 0 {
        return Err(EmptyCatalogue);
      }
      var rs := Separations(catalog[k].0, catalog[k].1, positions, sep);
      var rMinIndex := FirstMin(rs);
      var bestMatch := sims[rMinIndex];
      var m := SimMatch(None, None, None, None);
      if rs[rMinIndex] < xmatchRadiusDeg {
        var flux := if simFluxKey in bestMatch.columns then Some(bestMatch.columns[simFluxKey]) else None;
        m := SimMatch(Some(bestMatch.mvir), Some(bestMatch.z), Some(bestMatch.rvirMpc), flux);
      }
      out := out + [m];
    }
    if |catalog| > 0 {
      assert out == SimMatches(catalog, sims, sep, xmatchRadiusDeg, simFluxKey).value;
    }
    return Ok(out);
  }

  // -------------------------------------------------------- contamination

  /** A float quotient of counts: finite, or infinite for a positive count over zero. */
  datatype Ratio = Finite(v: real) | Infinite

  /** `inverted / candidates` with only NaN (0/0) replaced by 0. */
  function ContaminationRatio(inverted: int, candidates: int): (r: Ratio)
    requires inverted >= 0 && candidates >= 0
    ensures r.Infinite? <==> candidates == 0 && inverted > 0
    ensures r.Finite? ==> r.v >= 0.0 && (r.v == 0.0 <==> inverted == 0)
    ensures r.Finite? && inverted <= candidates ==> r.v <= 1.0
  {
    if candidates == 0 then (if inverted == 0 then Finite(0.0) else Infinite)
    else
      var a, b := inverted as real, candidates as real;
      assert a / b * b == a;
      Finite(a / b)
  }

  /** The cumulative columns `estimateContaminationFromInvertedMaps` returns. */
  datatype ContaminationEstimate = ContaminationEstimate(
    snr: seq<real>,
    cumSumCandidates: seq<int>,
    cumSumInverted: seq<int>,
    cumContamination: seq<Ratio>)

  function ContaminationOf(candidateSNRs: seq<real>, invertedSNRs: seq<real>, edges: seq<real>)
    : (r: ContaminationEstimate)
    requires |edges| >= 2
    ensures |r.snr| == |r.cumSumCandidates| == |r.cumSumInverted| == |r.cumContamination| == |edges| - 1
  {
    var hc, hs := Histogram(candidateSNRs, edges), Histogram(invertedSNRs, edges);
    SuffixSumsNonNeg(hc);
    SuffixSumsNonNeg(hs);
    EstimateFromSums(edges, SuffixSumsOf(hc), SuffixSumsOf(hs))
  }

  /** The estimate's columns from the two cumulative counts: `cumSumInverted / cumSumCandidates`. */
  function EstimateFromSums(edges: seq<real>, c: seq<int>, s: seq<int>): (r: ContaminationEstimate)
    requires |edges| >= 2 && |c| == |s| == |edges| - 1
    requires forall i :: 0 <= i < |c| ==> c[i] >= 0 && s[i] >= 0
    ensures |r.snr| == |r.cumSumCandidates| == |r.cumSumInverted| == |r.cumContamination| == |edges| - 1
  {
    ContaminationEstimate(edges[..|edges| - 1], c, s,
      seq(|c|, i requires 0 <= i < |c| => ContaminationRatio(s[i], c[i])))
  }

  /**
   * Row `i` counts the candidates and the inverted-map detections with S/N
   * at or above edge `i`, the counts never grow with the row, and the
   * contamination is infinite exactly where there are inverted detections
   * but no candidates (unlike the masked ratio of the map-level estimate,
   * which reports 0 there).
   */
  lemma {:induction false} ContaminationRows(candidateSNRs: seq<real>, invertedSNRs: seq<real>, edges: seq<real>,
                                            i: nat, j: nat)
    requires StrictlyIncreasing(edges) && i <= j < |edges| - 1
    ensures var r := ContaminationOf(candidateSNRs, invertedSNRs, edges);
      var last := edges[|edges| - 1];
      r.snr[i] == edges[i] &&
      r.cumSumCandidates[i] == CountBetween(candidateSNRs, edges[i], last) &&
      r.cumSumInverted[i] == CountBetween(invertedSNRs, edges[i], last) &&
      r.cumSumCandidates[i] >= r.cumSumCandidates[j] && r.cumSumInverted[i] >= r.cumSumInverted[j] &&
      (r.cumContamination[i].Infinite? <==> r.cumSumCandidates[i] == 0 && r.cumSumInverted[i] > 0)
  {
    var hc, hs := Histogram(candidateSNRs, edges), Histogram(invertedSNRs, edges);
    SuffixCountsAbove(candidateSNRs, edges, i);
    SuffixCountsAbove(invertedSNRs, edges, i);
    SuffixSumsNonincreasing(hc, i, j);
    SuffixSumsNonincreasing(hs, i, j);
  }

  /** The loop over the bins, summing each histogram from bin `i` up. */
  method EstimateContamination(candidateSNRs: seq<real>, invertedSNRs: seq<real>, edges: seq<real>)
    returns (r: ContaminationEstimate)
    requires |edges| >= 2
    ensures r == ContaminationOf(candidateSNRs, invertedSNRs, edges)
  {
    var candidateHist := Histogram(candidateSNRs, edges);
    var invertedHist := Histogram(invertedSNRs, edges);
    var cumSumCandidates: seq<int> := [];
    var cumSumInverted: seq<int> := [];
    for i := 0 to |edges| - 1
      invariant |cumSumCandidates| == |cumSumInverted| == i
      invariant forall k :: 0 <= k < i ==> cumSumCandidates[k] == ISum(candidateHist[k..])
      invariant forall k :: 0 <= k < i ==> cumSumInverted[k] == ISum(invertedHist[k..])
    {
      var c := SumFrom(candidateHist, i);
      var s := SumFrom(invertedHist, i);
      cumSumCandidates := cumSumCandidates + [c];
      cumSumInverted := cumSumInverted + [s];
    }
    assert cumSumCandidates == SuffixSumsOf(candidateHist);
    assert cumSumInverted == SuffixSumsOf(invertedHist);
    SuffixSumsNonNeg(candidateHist);
    SuffixSumsNonNeg(invertedHist);
    r := EstimateFromSums(edges, cumSumCandidates, cumSumInverted);
  }

  // --------------------------------------------------- aperture flux cuts

  /**
   * `obj['z'] > zRange[0] and obj['z'] < zRange[1] and flux > YLimit`; a
   * `YLimit` of None lets every flux through (Python 2 orders None below
   * every number).
   */
  predicate PassesCuts(o: SimObject, zRange: (real, real), yLimit: Option<real>)
  {
    zRange.0 < o.z < zRange.1 && (yLimit.None? || o.catalogFlux > yLimit.value)
  }

  const ApertureFluxKey := "fixedApertureFluxFromInputSimMap_arcmin2"

  /**
   * The catalogue after `getInputSimApertureFluxes` measures the objects
   * passing the cuts; `apertureFlux` stands for the aperture sum over the
   * simulated map. A missing z range fails on the first object.
   */
  function ApertureFluxes(catalog: seq<SimObject>, zRange: Option<(real, real)>, yLimit: Option<real>,
                          apertureFlux: SimObject -> real): (r: Result<seq<SimObject>, SimError>)
    ensures r.Err? <==> |catalog| > 0 && zRange.None?
    ensures r.Ok? ==> |r.value| == |catalog|
  {
    if |catalog| == 0 then Ok([])
    else if zRange.None? then Err(MissingZRange)
    else Ok(seq(|catalog|, k requires 0 <= k < |catalog| =>
      if PassesCuts(catalog[k], zRange.value, yLimit)
      then catalog[k].(columns := catalog[k].columns[ApertureFluxKey := apertureFlux(catalog[k])])
      else catalog[k]))
  }

  /**
   * Only objects strictly inside the z range and strictly above the flux
   * limit get the aperture flux; every other object is left as it was.
   * Objects at a boundary (`z == zRange[0]`, `flux == YLimit`) are skipped.
   */
  lemma {:induction false} ApertureFluxOnlyPassing(catalog: seq<SimObject>, zRange: (real, real), yLimit: Option<real>,
                                                  apertureFlux: SimObject -> real, k: nat)
    requires k < |catalog| && ApertureFluxKey !in catalog[k].columns
    ensures var r := ApertureFluxes(catalog, Some(zRange), yLimit, apertureFlux).value[k];
      (ApertureFluxKey in r.columns <==> PassesCuts(catalog[k], zRange, yLimit)) &&
      (ApertureFluxKey in r.columns ==> r.columns[ApertureFluxKey] == apertureFlux(catalog[k])) &&
      r == catalog[k].(columns := r.columns) &&
      (catalog[k].z == zRange.0 || (yLimit.Some? && catalog[k].catalogFlux == yLimit.value) ==> r == catalog[k])
  {
    var r := ApertureFluxes(catalog, Some(zRange), yLimit, apertureFlux).value[k];
    if PassesCuts(catalog[k], zRange, yLimit) {
      assert r == catalog[k].(columns := catalog[k].columns[ApertureFluxKey := apertureFlux(catalog[k])]);
    } else {
      assert r == catalog[k];
    }
  }

  /** The measuring loop over the catalogue. */
  method GetInputSimApertureFluxes(catalog: seq<SimObject>, zRange: Option<(real, real)>, yLimit: Option<real>,
                                   apertureFlux: SimObject -> real) returns (r: Result<seq<SimObject>, SimError>)
    ensures r == ApertureFluxes(catalog, zRange, yLimit, apertureFlux)
  {
    var out: seq<SimObject> := [];
    for k := 0 to |catalog|
      invariant |out| == k
      invariant k > 0 ==> zRange.Some?
      invariant forall m :: 0 <= m < k ==>
        out[m] == if PassesCuts(catalog[m], zRange.value, yLimit)
                  then catalog[m].(columns := catalog[m].columns[ApertureFluxKey := apertureFlux(catalog[m])])
                  else catalog[m]
    {
      if zRange.None? {
        return Err(MissingZRange);
      }
      var obj := catalog[k];
      if PassesCuts(obj, zRange.value, yLimit) {
        obj := obj.(columns := obj.columns[ApertureFluxKey := apertureFlux(obj)]);
      }
      out := out + [obj];
    }
    if |catalog| > 0 {
      assert out == ApertureFluxes(catalog, zRange, yLimit, apertureFlux).value;
    }
    return Ok(out);
  }

  // --------------------------------------------------- recovery counters

  /** The two properties the fake-source simulations track. */
  datatype Property = DeltaT | ScaleArcmin

  /** A fake source after matching: its drawn amplitude and scale, and whether it was recovered. */
  datatype FakeSource = FakeSource(deltaT: real, scaleArcmin: real, recovered: bool)

  function ValueOf(o: FakeSource, prop: Property): real
  {
    match prop
    case DeltaT => o.deltaT
    case ScaleArcmin => o.scaleArcmin
  }

  /** How many of the sources land in column `j` (`valuesList.index(value) == j`). */
  function Hits(objs: seq<FakeSource>, prop: Property, valuesList: seq<real>, j: int, onlyRecovered: bool): nat
    decreases |objs|
  {
    if |objs| == 0 then 0
    else
      var n := |objs| - 1;
      var v := ValueOf(objs[n], prop);
      Hits(objs[..n], prop, valuesList, j, onlyRecovered) +
        (if v in valuesList && FirstIndex(valuesList, v) == j && (objs[n].recovered || !onlyRecovered) then 1 else 0)
  }

  /** One more source adds one to its own column, and to the recovered count when it was recovered. */
  lemma {:induction false} HitsSnoc(objs: seq<FakeSource>, k: nat, prop: Property, valuesList: seq<real>)
    requires k < |objs|
    ensures forall j, onlyRecovered ::
      Hits(objs[..k + 1], prop, valuesList, j, onlyRecovered) ==
      Hits(objs[..k], prop, valuesList, j, onlyRecovered) +
      (if ValueOf(objs[k], prop) in valuesList && FirstIndex(valuesList, ValueOf(objs[k], prop)) == j
          && (objs[k].recovered || !onlyRecovered) then 1 else 0)
  {
    assert objs[..k + 1][..k] == objs[..k];
  }

  /** Recovered sources are a subset of all sources, column by column. */
  lemma {:induction false} RecoveredHitsBounded(objs: seq<FakeSource>, prop: Property, valuesList: seq<real>, j: int)
    ensures Hits(objs, prop, valuesList, j, true) <= Hits(objs, prop, valuesList, j, false)
    decreases |objs|
  {
    if |objs| > 0 {
      RecoveredHitsBounded(objs[..|objs| - 1], prop, valuesList, j);
    }
  }

  /** Every listed source lands in exactly one column: the columns of a run add up to the number of sources. */
  lemma {:induction false} HitsAddUp(objs: seq<FakeSource>, prop: Property, valuesList: seq<real>)
    requires forall k :: 0 <= k < |objs| ==> ValueOf(objs[k], prop) in valuesList
    ensures ISum(seq(|valuesList|, j requires 0 <= j < |valuesList| => Hits(objs, prop, valuesList, j, false))) == |objs|
    decreases |objs|
  {
    var row := seq(|valuesList|, j requires 0 <= j < |valuesList| => Hits(objs, prop, valuesList, j, false));
    if |objs| > 0 {
      var n := |objs| - 1;
      var prev := seq(|valuesList|, j requires 0 <= j < |valuesList| => Hits(objs[..n], prop, valuesList, j, false));
      HitsAddUp(objs[..n], prop, valuesList);
      var f := FirstIndex(valuesList, ValueOf(objs[n], prop));
      var ind := seq(|valuesList|, j requires 0 <= j < |valuesList| => if j == f then 1 else 0);
      assert forall j :: 0 <= j < |valuesList| ==> row[j] == prev[j] + ind[j];
      ISumPointwise(prev, ind, row);
      ISumIndicator(ind, f);
    } else {
      ISumZeros(row);
    }
  }

  lemma {:induction false} ISumPointwise(a: seq<int>, b: seq<int>, c: seq<int>)
    requires |a| == |b| == |c|
    requires forall j :: 0 <= j < |c| ==> c[j] == a[j] + b[j]
    ensures ISum(c) == ISum(a) + ISum(b)
    decreases |c|
  {
    if |c| > 0 {
      ISumPointwise(a[1..], b[1..], c[1..]);
    }
  }

  /** A sequence that is 1 at position `f` and 0 elsewhere sums to 1. */
  lemma {:induction false} ISumIndicator(s: seq<int>, f: nat)
    requires f < |s|
    requires forall j :: 0 <= j < |s| ==> s[j] == (if j == f then 1 else 0)
    ensures ISum(s) == 1
    decreases |s|
  {
    if f == 0 {
      ISumZeros(s[1..]);
    } else {
      ISumIndicator(s[1..], f - 1);
    }
  }

  lemma {:induction false} ISumZeros(s: seq<int>)
    requires forall j :: 0 <= j < |s| ==> s[j] == 0
    ensures ISum(s) == 0
    decreases |s|
  {
    if |s| > 0 {
      ISumZeros(s[1..]);
    }
  }

  /**
   * The per-run counters of one tracked property (`selFnDict[profile][prop]`):
   * how many fake sources of each listed value were inserted and recovered
   * in each run.
   */
  class RecoveryTally {
    const valuesList: seq<real>
    const numRuns: nat
    var recoveredByRun: array2<int>
    var totalByRun: array2<int>

    /** The counters have one row per run and one column per value, and recovered never exceeds total. */
    ghost predicate Valid()
      reads this, recoveredByRun, totalByRun
    {
      recoveredByRun.Length0 == numRuns && recoveredByRun.Length1 == |valuesList| &&
      totalByRun.Length0 == numRuns && totalByRun.Length1 == |valuesList| &&
      recoveredByRun != totalByRun &&
      forall i, j :: 0 <= i < numRuns && 0 <= j < |valuesList| ==> 0 <= recoveredByRun[i, j] <= totalByRun[i, j]
    }

    constructor (numRuns: nat, valuesList: seq<real>)
      ensures Valid() && this.numRuns == numRuns && this.valuesList == valuesList
      ensures fresh(recoveredByRun) && fresh(totalByRun)
      ensures forall i, j :: 0 <= i < numRuns && 0 <= j < |valuesList| ==>
        recoveredByRun[i, j] == 0 && totalByRun[i, j] == 0
    {
      this.numRuns := numRuns;
      this.valuesList := valuesList;
      recoveredByRun := new int[numRuns, |valuesList|]((i, j) => 0);
      totalByRun := new int[numRuns, |valuesList|]((i, j) => 0);
    }

    /**
     * Counts one fake source of value `value` in run `run`: its column's
     * total goes up by one, and its recovered count too when it was
     * recovered; a value not in the list is an error.
     */
    method Record(run: nat, value: real, recovered: bool) returns (err: Option<SimError>)
      requires Valid() && run < numRuns
      modifies recoveredByRun, totalByRun
      ensures Valid()
      ensures err.Some? <==> value !in valuesList
      ensures err.Some? ==> err.value == ValueNotListed(value) && unchanged(recoveredByRun) && unchanged(totalByRun)
      ensures err.None? ==>
        var c := FirstIndex(valuesList, value);
        forall i, j :: 0 <= i < numRuns && 0 <= j < |valuesList| ==>
          totalByRun[i, j] == old(totalByRun[i, j]) + (if i == run && j == c then 1 else 0) &&
          recoveredByRun[i, j] == old(recoveredByRun[i, j]) + (if i == run && j == c && recovered then 1 else 0)
    {
      if value !in valuesList {
        return Some(ValueNotListed(value));
      }
      var index := FirstIndex(valuesList, value);
      totalByRun[run, index] := totalByRun[run, index] + 1;
      if recovered {
        recoveredByRun[run, index] := recoveredByRun[run, index] + 1;
      }
      return None;
    }
  }

  /**
   * Counting one run of fake sources (`fakeSourceSims`): every source adds one
   * to the total of its amplitude column and of its scale column, and one
   * to the recovered counts when it was recovered. Afterwards the run's
   * rows have grown by exactly the hits of that run, and recovered still
   * never exceeds total.
   */
  method RecordRun(deltaTTally: RecoveryTally, scaleTally: RecoveryTally, run: nat, objs: seq<FakeSource>)
    returns (err: Option<SimError>)
    requires deltaTTally.Valid() && scaleTally.Valid()
    requires run < deltaTTally.numRuns && run < scaleTally.numRuns
    requires {deltaTTally.recoveredByRun, deltaTTally.totalByRun} !! {scaleTally.recoveredByRun, scaleTally.totalByRun}
    modifies deltaTTally.recoveredByRun, deltaTTally.totalByRun, scaleTally.recoveredByRun, scaleTally.totalByRun
    ensures deltaTTally.Valid() && scaleTally.Valid()
    ensures err.None? <==>
      forall k :: 0 <= k < |objs| ==> objs[k].deltaT in deltaTTally.valuesList && objs[k].scaleArcmin in scaleTally.valuesList
    ensures err.None? ==>
      (forall i, j :: 0 <= i < deltaTTally.numRuns && 0 <= j < |deltaTTally.valuesList| ==>
        deltaTTally.totalByRun[i, j] == old(deltaTTally.totalByRun[i, j]) + (if i == run then Hits(objs, DeltaT, deltaTTally.valuesList, j, false) else 0) &&
        deltaTTally.recoveredByRun[i, j] == old(deltaTTally.recoveredByRun[i, j]) + (if i == run then Hits(objs, DeltaT, deltaTTally.valuesList, j, true) else 0)) &&
      forall i, j :: 0 <= i < scaleTally.numRuns && 0 <= j < |scaleTally.valuesList| ==>
        scaleTally.totalByRun[i, j] == old(scaleTally.totalByRun[i, j]) + (if i == run then Hits(objs, ScaleArcmin, scaleTally.valuesList, j, false) else 0) &&
        scaleTally.recoveredByRun[i, j] == old(scaleTally.recoveredByRun[i, j]) + (if i == run then Hits(objs, ScaleArcmin, scaleTally.valuesList, j, true) else 0)
  {
    assert objs[..0] == [];
    assert forall j, rec :: Hits(objs[..0], DeltaT, deltaTTally.valuesList, j, rec) == 0;
    assert forall j, rec :: Hits(objs[..0], ScaleArcmin, scaleTally.valuesList, j, rec) == 0;
    for k := 0 to |objs|
      invariant deltaTTally.Valid() && scaleTally.Valid()
      invariant forall m :: 0 <= m < k ==> objs[m].deltaT in deltaTTally.valuesList && objs[m].scaleArcmin in scaleTally.valuesList
      invariant
        forall i, j :: 0 <= i < deltaTTally.numRuns && 0 <= j < |deltaTTally.valuesList| ==>
          deltaTTally.totalByRun[i, j] == old(deltaTTally.totalByRun[i, j]) + (if i == run then Hits(objs[..k], DeltaT, deltaTTally.valuesList, j, false) else 0) &&
          deltaTTally.recoveredByRun[i, j] == old(deltaTTally.recoveredByRun[i, j]) + (if i == run then Hits(objs[..k], DeltaT, deltaTTally.valuesList, j, true) else 0)
      invariant
        forall i, j :: 0 <= i < scaleTally.numRuns && 0 <= j < |scaleTally.valuesList| ==>
          scaleTally.totalByRun[i, j] == old(scaleTally.totalByRun[i, j]) + (if i == run then Hits(objs[..k], ScaleArcmin, scaleTally.valuesList, j, false) else 0) &&
          scaleTally.recoveredByRun[i, j] == old(scaleTally.recoveredByRun[i, j]) + (if i == run then Hits(objs[..k], ScaleArcmin, scaleTally.valuesList, j, true) else 0)
    {
      HitsSnoc(objs, k, DeltaT, deltaTTally.valuesList);
      HitsSnoc(objs, k, ScaleArcmin, scaleTally.valuesList);
      var e1 := deltaTTally.Record(run, objs[k].deltaT, objs[k].recovered);
      if e1.Some? {
        return e1;
      }
      var e2 := scaleTally.Record(run, objs[k].scaleArcmin, objs[k].recovered);
      if e2.Some? {
        return e2;
      }
    }
    assert objs[..|objs|] == objs;
    return None;
  }
}
