/**
 * The map handling of nemo's `maps.py` that is not image processing: unit
 * conversions, the array steps of `preprocessMapDict` after the maps are
 * loaded, the contamination tables of `estimateContamination`, tile-deck file
 * naming and the labels and S/N bins of the position-recovery test.
 */
module Maps {
  import opened Common
  import opened Binning

  datatype MapError =
    | UnsupportedJyFrequency(obsFreqGHz: real)   // Jy/sr maps at a frequency with no conversion
    | WeightsShape                               // boolean mask of another shape than the data
    | PointSourceMaskShape
    | SurveyMaskShape
    | MissingKey(key: string)                    // KeyError on a catalogue object

  // ------------------------------------------------------- unit conversion

  /**
   * `convertToY`: a map in micro-Kelvin to Compton y, given `fx` (the value
   * of `signals.fSZ` at the observing frequency) and the CMB temperature.
   */
  function ConvertToY(m: seq<real>, fx: real, tcmb: real): (y: seq<real>)
    requires fx != 0.0 && tcmb != 0.0
    ensures |y| == |m|
  {
    seq(|m|, i requires 0 <= i < |m| => (m[i] / (tcmb * 1000000.0)) / fx)
  }

  /** `convertToDeltaT`: Compton y back to micro-Kelvin. */
  function ConvertToDeltaT(y: seq<real>, fx: real, tcmb: real): (m: seq<real>)
    ensures |m| == |y|
  {
    seq(|y|, i requires 0 <= i < |y| => y[i] * fx * (tcmb * 1000000.0))
  }

  lemma {:induction false} DivMulCancel(a: real, b: real, c: real)
    requires b != 0.0 && c != 0.0
    ensures (a / b) / c * c * b == a
  {
    var q := (a / b) / c;
    assert q * c == a / b;
    assert (a / b) * b == a;
  }

  lemma {:induction false} MulDivCancel(a: real, b: real, c: real)
    requires b != 0.0
    ensures (a * c) * b / b == a * c
  {
  }

  /** Converting to y and back gives the map again, pixel for pixel. */
  lemma {:induction false} DeltaTOfY(m: seq<real>, fx: real, tcmb: real)
    requires fx != 0.0 && tcmb != 0.0
    ensures ConvertToDeltaT(ConvertToY(m, fx, tcmb), fx, tcmb) == m
  {
    var r := ConvertToDeltaT(ConvertToY(m, fx, tcmb), fx, tcmb);
    forall i | 0 <= i < |m| ensures r[i] == m[i] {
      DivMulCancel(m[i], tcmb * 1000000.0, fx);
    }
  }

  /** Converting to micro-Kelvin and back gives the y map again. */
  lemma {:induction false} YOfDeltaT(y: seq<real>, fx: real, tcmb: real)
    requires fx != 0.0 && tcmb != 0.0
    ensures ConvertToY(ConvertToDeltaT(y, fx, tcmb), fx, tcmb) == y
  {
    var m := ConvertToDeltaT(y, fx, tcmb);
    var r := ConvertToY(m, fx, tcmb);
    forall i | 0 <= i < |y| ensures r[i] == y[i] {
      var b := tcmb * 1000000.0;
      assert m[i] == (y[i] * fx) * b;
      assert m[i] / b == y[i] * fx by { MulDivCancel(y[i], b, fx); }
      assert (y[i] * fx) / fx == y[i];
    }
  }

  /**
   * The Jy/sr divisor `preprocessMapDict` applies before scaling by
   * 2.726e6: only 148 and 219 GHz have one.
   */
  function JyDivisor(obsFreqGHz: real): (r: Result<real, MapError>)
    ensures r.Ok? <==> obsFreqGHz == 148.0 || obsFreqGHz == 219.0
    ensures r.Ok? ==> r.value > 0.0
  {
    if obsFreqGHz == 148.0 then Ok(1072480000.0)
    else if obsFreqGHz == 219.0 then Ok(1318837000.0)
    else Err(UnsupportedJyFrequency(obsFreqGHz))
  }

  /** The map in micro-Kelvin: Jy/sr maps are rescaled, maps in any other unit pass through. */
  function ToMicroK(units: string, obsFreqGHz: real, data: seq<real>): (r: Result<seq<real>, MapError>)
    ensures units != "Jy/sr" ==> r == Ok(data)
    ensures units == "Jy/sr" ==> (r.Ok? <==> obsFreqGHz == 148.0 || obsFreqGHz == 219.0)
    ensures r.Ok? ==> |r.value| == |data|
  {
    if units != "Jy/sr" then Ok(data)
    else
      var d :- JyDivisor(obsFreqGHz);
      Ok(seq(|data|, i requires 0 <= i < |data| => data[i] / d * 2.726 * 1000000.0))
  }

  /** The rescaling keeps the sign of every pixel, so zeroed pixels stay zero and sources keep their sign. */
  lemma {:induction false} ToMicroKKeepsSign(units: string, obsFreqGHz: real, data: seq<real>, i: nat)
    requires ToMicroK(units, obsFreqGHz, data).Ok? && i < |data|
    ensures var v := ToMicroK(units, obsFreqGHz, data).value[i];
      (v == 0.0 <==> data[i] == 0.0) && (v > 0.0 <==> data[i] > 0.0)
  {
    if units == "Jy/sr" {
      var d := JyDivisor(obsFreqGHz).value;
      var q := data[i] / d;
      assert ToMicroK(units, obsFreqGHz, data).value[i] == q * 2.726 * 1000000.0;
      assert q == 0.0 <==> data[i] == 0.0;
      assert q > 0.0 <==> data[i] > 0.0;
    }
  }

  // ------------------------------------------------ weights and masks

  predicate SameShape(a: array2<real>, b: array2<real>)
    reads {}
  {
    a.Length0 == b.Length0 && a.Length1 == b.Length1
  }

  /** `data[weights == 0] = 0`, one row at a time. */
  method ZeroUnweighted(data: array2<real>, weights: array2<real>)
    requires SameShape(data, weights) && data != weights
    modifies data
    ensures forall i, j :: 0 <= i < data.Length0 && 0 <= j < data.Length1 ==>
      data[i, j] == (if weights[i, j] == 0.0 then 0.0 else old(data[i, j]))
  {
    var i := 0;
    while i < data.Length0
      invariant 0 <= i <= data.Length0
      invariant forall r, c :: 0 <= r < i && 0 <= c < data.Length1 ==>
        data[r, c] == (if weights[r, c] == 0.0 then 0.0 else old(data[r, c]))
      invariant forall r, c :: i <= r < data.Length0 && 0 <= c < data.Length1 ==> data[r, c] == old(data[r, c])
    {
      ZeroRow(data, weights, i);
      i := i + 1;
    }
  }

  method ZeroRow(data: array2<real>, weights: array2<real>, i: nat)
    requires SameShape(data, weights) && data != weights && i < data.Length0
    modifies data
    ensures forall c :: 0 <= c < data.Length1 ==>
      data[i, c] == (if weights[i, c] == 0.0 then 0.0 else old(data[i, c]))
    ensures forall r, c :: 0 <= r < data.Length0 && r != i && 0 <= c < data.Length1 ==> data[r, c] == old(data[r, c])
  {
    var j := 0;
    while j < data.Length1
      invariant 0 <= j <= data.Length1
      invariant forall c :: 0 <= c < j ==> data[i, c] == (if weights[i, c] == 0.0 then 0.0 else old(data[i, c]))
      invariant forall r, c :: 0 <= r < data.Length0 && 0 <= c < data.Length1 && (r != i || c >= j) ==>
        data[r, c] == old(data[r, c])
    {
      if weights[i, j] == 0.0 {
        data[i, j] := 0.0;
      }
      j := j + 1;
    }
  }

  /** The arrays `preprocessMapDict` stores next to the data. */
  datatype MapArrays = MapArrays(weights: array2<real>, surveyMask: array2<real>, psMask: array2<real>)

  predicate Mismatched(given: Option<array2<real>>, data: array2<real>)
  {
    given.Some? && !SameShape(given.value, data)
  }

  /** The exception `preprocessMapDict` raises first, if any: weights, then point-source mask, then survey mask. */
  function ShapeError(data: array2<real>, weightsIn: Option<array2<real>>, surveyIn: Option<array2<real>>,
                      psIn: Option<array2<real>>): Option<MapError>
  {
    if Mismatched(weightsIn, data) then Some(WeightsShape)
    else if Mismatched(psIn, data) then Some(PointSourceMaskShape)
    else if Mismatched(surveyIn, data) then Some(SurveyMaskShape)
    else None
  }

  /**
   * The array steps of `preprocessMapDict` once the data is loaded: default
   * weights of one, unweighted pixels zeroed, the default survey mask of
   * weighted pixels, the default point-source mask of ones, and the shape
   * checks. A given mask or weight map is an input; `None` means no file.
   */
  method PrepareArrays(data: array2<real>, weightsIn: Option<array2<real>>, surveyIn: Option<array2<real>>,
                       psIn: Option<array2<real>>) returns (r: Result<MapArrays, MapError>)
    requires weightsIn.Some? ==> weightsIn.value != data
    modifies data
    ensures r.Err? <==> ShapeError(data, weightsIn, surveyIn, psIn).Some?
    ensures r.Err? ==> r.error == ShapeError(data, weightsIn, surveyIn, psIn).value
    ensures r.Ok? ==>
      SameShape(r.value.weights, data) && SameShape(r.value.surveyMask, data) && SameShape(r.value.psMask, data) &&
      r.value.weights != data
    ensures r.Ok? && weightsIn.Some? ==> r.value.weights == weightsIn.value
    ensures r.Ok? && weightsIn.None? ==>
      fresh(r.value.weights) &&
      forall i, j :: 0 <= i < data.Length0 && 0 <= j < data.Length1 ==> r.value.weights[i, j] == 1.0
    ensures r.Ok? ==>
      forall i, j :: 0 <= i < data.Length0 && 0 <= j < data.Length1 ==>
        data[i, j] == (if r.value.weights[i, j] == 0.0 then 0.0 else old(data[i, j]))
    ensures r.Ok? && surveyIn.None? ==>
      fresh(r.value.surveyMask) &&
      forall i, j :: 0 <= i < data.Length0 && 0 <= j < data.Length1 ==>
        r.value.surveyMask[i, j] == (if r.value.weights[i, j] == 0.0 then 0.0 else 1.0)
    ensures r.Ok? && surveyIn.Some? ==> r.value.surveyMask == surveyIn.value
    ensures r.Ok? && psIn.None? ==>
      fresh(r.value.psMask) &&
      forall i, j :: 0 <= i < data.Length0 && 0 <= j < data.Length1 ==> r.value.psMask[i, j] == 1.0
    ensures r.Ok? && psIn.Some? ==> r.value.psMask == psIn.value
  {
    var weights: array2<real>;
    if weightsIn.Some? {
      weights := weightsIn.value;
      if !SameShape(weights, data) {
        return Err(WeightsShape);
      }
    } else {
      weights := new real[data.Length0, data.Length1]((i, j) => 1.0);
    }
    ZeroUnweighted(data, weights);
    var surveyMask: array2<real>;
    if surveyIn.Some? {
      surveyMask := surveyIn.value;
    } else {
      surveyMask := new real[data.Length0, data.Length1]((i, j) reads weights
        requires 0 <= i < weights.Length0 && 0 <= j < weights.Length1 =>
        if weights[i, j] == 0.0 then 0.0 else 1.0);
    }
    var psMask: array2<real>;
    if psIn.Some? {
      psMask := psIn.value;
    } else {
      psMask := new real[data.Length0, data.Length1]((i, j) => 1.0);
    }
    if !SameShape(psMask, data) {
      return Err(PointSourceMaskShape);
    }
    if !SameShape(surveyMask, data) {
      return Err(SurveyMaskShape);
    }
    return Ok(MapArrays(weights, surveyMask, psMask));
  }

  // ------------------------------------------------ contamination tables

  /** A catalogue entry: column name to value. */
  type CatalogObject = map<string, real>

  /** `[obj[SNRKey] for obj in catalog]`; a missing column raises. */
  function ColumnOf(catalog: seq<CatalogObject>, key: string): (r: Result<seq<real>, MapError>)
    ensures r.Ok? <==> forall i :: 0 <= i < |catalog| ==> key in catalog[i]
    ensures r.Ok? ==> |r.value| == |catalog| && forall i :: 0 <= i < |catalog| ==> r.value[i] == catalog[i][key]
    ensures r.Err? ==> r.error == MissingKey(key)
    decreases |catalog|
  {
    if |catalog| == 0 then Ok([])
    else
      var prev :- ColumnOf(catalog[..|catalog| - 1], key);
      if key !in catalog[|catalog| - 1] then Err(MissingKey(key))
      else Ok(prev + [catalog[|catalog| - 1][key]])
  }

  /** The loop collecting one S/N column. */
  method CollectColumn(catalog: seq<CatalogObject>, key: string) returns (r: Result<seq<real>, MapError>)
    ensures r == ColumnOf(catalog, key)
  {
    var values: seq<real> := [];
    var i := 0;
    while i < |catalog|
      invariant 0 <= i <= |catalog|
      invariant ColumnOf(catalog[..i], key) == Ok(values)
    {
      assert catalog[..i + 1][..i] == catalog[..i];
      if key !in catalog[i] {
        assert catalog[..i + 1][i] == catalog[i];
        return Err(MissingKey(key));
      }
      values := values + [catalog[i][key]];
      i := i + 1;
    }
    assert catalog[..i] == catalog;
    return Ok(values);
  }

  /**
   * `cumContamination[mask] = inverted[mask] / candidates[mask]` on zeros,
   * where the mask is `candidates > 0`.
   */
  function MaskedRatio(inverted: seq<int>, candidates: seq<int>): (r: seq<real>)
    requires |inverted| == |candidates|
    ensures |r| == |candidates|
  {
    seq(|candidates|, i requires 0 <= i < |candidates| =>
      if candidates[i] > 0 then inverted[i] as real / candidates[i] as real else 0.0)
  }

  /** The ratio is never negative or undefined, and is zero exactly where there are no inverted detections or no candidates. */
  lemma {:induction false} MaskedRatioBounds(inverted: seq<int>, candidates: seq<int>, i: nat)
    requires |inverted| == |candidates| && i < |candidates|
    requires inverted[i] >= 0 && candidates[i] >= 0
    ensures MaskedRatio(inverted, candidates)[i] >= 0.0
    ensures MaskedRatio(inverted, candidates)[i] == 0.0 <==> candidates[i] == 0 || inverted[i] == 0
    ensures inverted[i] <= candidates[i] ==> MaskedRatio(inverted, candidates)[i] <= 1.0
  {
    if candidates[i] > 0 {
      var a, b := inverted[i] as real, candidates[i] as real;
      assert MaskedRatio(inverted, candidates)[i] == a / b;
      assert a / b * b == a;
    }
  }

  /** The table `estimateContamination` writes for one S/N column. */
  datatype ContamTable = ContamTable(
    snrKey: string,
    lowerEdges: seq<real>,           // the column named after the S/N key
    cumSumRealCandidates: seq<int>,
    cumSumSimCandidates: seq<int>,
    cumContamination: seq<real>)

  function ContaminationTable(snrKey: string, edges: seq<real>, candidates: seq<real>, inverted: seq<real>)
    : ContamTable
    requires |edges| >= 2
  {
    var c := SuffixSumsOf(Histogram(candidates, edges));
    var s := SuffixSumsOf(Histogram(inverted, edges));
    ContamTable(snrKey, edges[..|edges| - 1], c, s, MaskedRatio(s, c))
  }

  /**
   * Row `i` of the table: its S/N is the lower edge of bin `i`, and the
   * cumulative columns count the real and the simulated (inverted)
   * detections at or above it.
   */
  lemma {:induction false} ContaminationTableCounts(snrKey: string, edges: seq<real>, candidates: seq<real>,
                                                   inverted: seq<real>, i: nat)
    requires StrictlyIncreasing(edges) && i < |edges| - 1
    ensures var t := ContaminationTable(snrKey, edges, candidates, inverted);
      |t.lowerEdges| == |t.cumSumRealCandidates| == |t.cumContamination| == |edges| - 1 &&
      t.lowerEdges[i] == edges[i] &&
      t.cumSumRealCandidates[i] == CountBetween(candidates, edges[i], edges[|edges| - 1]) &&
      t.cumSumSimCandidates[i] == CountBetween(inverted, edges[i], edges[|edges| - 1]) &&
      (t.cumSumRealCandidates[i] > 0 ==>
        t.cumContamination[i] == t.cumSumSimCandidates[i] as real / t.cumSumRealCandidates[i] as real) &&
      (t.cumSumRealCandidates[i] == 0 ==> t.cumContamination[i] == 0.0)
  {
    SuffixCountsAbove(candidates, edges, i);
    SuffixCountsAbove(inverted, edges, i);
  }

  /** The table key `'%s_%s' % (label, SNRKey)`. */
  function TableKey(tag: string, snrKey: string): string
  {
    tag + "_" + snrKey
  }

  /** Different S/N keys under one label never share a table key. */
  lemma {:induction false} TableKeyInjective(tag: string, a: string, b: string)
    requires TableKey(tag, a) == TableKey(tag, b)
    ensures a == b
  {
    var n := |tag| + 1;
    assert a == TableKey(tag, a)[n..];
    assert b == TableKey(tag, b)[n..];
  }

  /** `estimateContamination`: one table per S/N key. */
  function Contamination(inverted: seq<CatalogObject>, candidates: seq<CatalogObject>, snrKeys: seq<string>,
                         tag: string, edges: seq<real>): (r: Result<map<string, ContamTable>, MapError>)
    requires |edges| >= 2
    decreases |snrKeys|
  {
    if |snrKeys| == 0 then Ok(map[])
    else
      var prev :- Contamination(inverted, candidates, snrKeys[..|snrKeys| - 1], tag, edges);
      var key := snrKeys[|snrKeys| - 1];
      var inv :- ColumnOf(inverted, key);
      var cand :- ColumnOf(candidates, key);
      Ok(prev[TableKey(tag, key) := ContaminationTable(key, edges, cand, inv)])
  }

  /** There is a table for every S/N key, under its label-prefixed key, and no other table. */
  lemma {:induction false} ContaminationKeys(inverted: seq<CatalogObject>, candidates: seq<CatalogObject>,
                                            snrKeys: seq<string>, tag: string, edges: seq<real>)
    requires |edges| >= 2
    ensures var r := Contamination(inverted, candidates, snrKeys, tag, edges);
      r.Ok? ==>
        (forall k :: k in snrKeys ==> TableKey(tag, k) in r.value) &&
        (forall t :: t in r.value ==> exists k :: k in snrKeys && t == TableKey(tag, k))
    decreases |snrKeys|
  {
    if |snrKeys| > 0 {
      var prefix := snrKeys[..|snrKeys| - 1];
      ContaminationKeys(inverted, candidates, prefix, tag, edges);
      assert forall k :: k in snrKeys <==> k in prefix || k == snrKeys[|snrKeys| - 1];
    }
  }

  /** Each S/N key's table is built from that key's columns. */
  lemma {:induction false} ContaminationTables(inverted: seq<CatalogObject>, candidates: seq<CatalogObject>,
                                              snrKeys: seq<string>, tag: string, edges: seq<real>, k: string)
    requires |edges| >= 2 && k in snrKeys
    requires Contamination(inverted, candidates, snrKeys, tag, edges).Ok?
    ensures ColumnOf(inverted, k).Ok? && ColumnOf(candidates, k).Ok?
    ensures TableKey(tag, k) in Contamination(inverted, candidates, snrKeys, tag, edges).value
    ensures Contamination(inverted, candidates, snrKeys, tag, edges).value[TableKey(tag, k)] ==
      ContaminationTable(k, edges, ColumnOf(candidates, k).value, ColumnOf(inverted, k).value)
    decreases |snrKeys|
  {
    var last := snrKeys[|snrKeys| - 1];
    var prefix := snrKeys[..|snrKeys| - 1];
    var prev := Contamination(inverted, candidates, prefix, tag, edges);
    assert prev.Ok? && ColumnOf(inverted, last).Ok? && ColumnOf(candidates, last).Ok?;
    var table := ContaminationTable(last, edges, ColumnOf(candidates, last).value, ColumnOf(inverted, last).value);
    assert Contamination(inverted, candidates, snrKeys, tag, edges).value == prev.value[TableKey(tag, last) := table];
    if k != last {
      assert k in prefix by {
        var i :| 0 <= i < |snrKeys| && snrKeys[i] == k;
        assert prefix[i] == k;
      }
      ContaminationTables(inverted, candidates, prefix, tag, edges, k);
      assert TableKey(tag, k) != TableKey(tag, last) by {
        if TableKey(tag, k) == TableKey(tag, last) {
          TableKeyInjective(tag, k, last);
        }
      }
    }
  }

  /** The loop over `SNRKeys` of `estimateContamination`, with the suffix-sum loops. */
  method EstimateContamination(inverted: seq<CatalogObject>, candidates: seq<CatalogObject>, snrKeys: seq<string>,
                               tag: string, edges: seq<real>) returns (r: Result<map<string, ContamTable>, MapError>)
    requires |edges| >= 2
    ensures r == Contamination(inverted, candidates, snrKeys, tag, edges)
  {
    var tables: map<string, ContamTable> := map[];
    var i := 0;
    while i < |snrKeys|
      invariant 0 <= i <= |snrKeys|
      invariant Contamination(inverted, candidates, snrKeys[..i], tag, edges) == Ok(tables)
    {
      assert snrKeys[..i + 1][..i] == snrKeys[..i];
      var key := snrKeys[i];
      var inv := CollectColumn(inverted, key);
      if inv.Err? {
        ContaminationErrExtends(inverted, candidates, snrKeys, i + 1, tag, edges);
        return Err(inv.error);
      }
      var cand := CollectColumn(candidates, key);
      if cand.Err? {
        ContaminationErrExtends(inverted, candidates, snrKeys, i + 1, tag, edges);
        return Err(cand.error);
      }
      var t := TableFor(key, edges, cand.value, inv.value);
      tables := tables[TableKey(tag, key) := t];
      i := i + 1;
    }
    assert snrKeys[..i] == snrKeys;
    return Ok(tables);
  }

  /** The histogram, suffix-sum loops and masked ratio for one key. */
  method TableFor(snrKey: string, edges: seq<real>, candidates: seq<real>, inverted: seq<real>) returns (t: ContamTable)
    requires |edges| >= 2
    ensures t == ContaminationTable(snrKey, edges, candidates, inverted)
  {
    var cumSumCandidates := SuffixSums(Histogram(candidates, edges));
    var cumSumInverted := SuffixSums(Histogram(inverted, edges));
    t := ContamTable(snrKey, edges[..|edges| - 1], cumSumCandidates, cumSumInverted,
                     MaskedRatio(cumSumInverted, cumSumCandidates));
  }

  lemma {:induction false} ContaminationErrExtends(inverted: seq<CatalogObject>, candidates: seq<CatalogObject>,
                                                  snrKeys: seq<string>, n: nat, tag: string, edges: seq<real>)
    requires |edges| >= 2 && n <= |snrKeys|
    requires Contamination(inverted, candidates, snrKeys[..n], tag, edges).Err?
    ensures Contamination(inverted, candidates, snrKeys, tag, edges) ==
      Contamination(inverted, candidates, snrKeys[..n], tag, edges)
    decreases |snrKeys|
  {
    if n < |snrKeys| {
      var shorter := snrKeys[..|snrKeys| - 1];
      assert shorter[..n] == snrKeys[..n];
      ContaminationErrExtends(inverted, candidates, shorter, n, tag, edges);
    } else {
      assert snrKeys[..n] == snrKeys;
    }
  }

  // ------------------------------------------------------ tile-deck names

  /** Index of the last `/`, or -1. */
  function LastSlash(p: string): (k: int)
    ensures -1 <= k < |p|
    ensures k >= 0 ==> p[k] == '/'
    ensures forall j :: k < j < |p| ==> p[j] != '/'
    decreases |p|
  {
    if |p| == 0 then -1 else if p[|p| - 1] == '/' then |p| - 1 else LastSlash(p[..|p| - 1])
  }

  predicate AllSlashes(s: string)
  {
    forall i :: 0 <= i < |s| ==> s[i] == '/'
  }

  /** `s.rstrip('/')`. */
  function RStripSlashes(s: string): (r: string)
    ensures |r| <= |s| && r == s[..|r|]
    ensures forall i :: |r| <= i < |s| ==> s[i] == '/'
    ensures r == [] || r[|r| - 1] != '/'
    decreases |s|
  {
    if |s| > 0 && s[|s| - 1] == '/' then RStripSlashes(s[..|s| - 1]) else s
  }

  /** `os.path.split` on POSIX: directory part without trailing slashes (unless all slashes), and the base name. */
  function SplitPath(p: string): (r: (string, string))
    ensures '/' !in r.1
    ensures |r.0| + |r.1| <= |p| && r.0 == p[..|r.0|] && r.1 == p[|p| - |r.1|..]
    ensures forall i :: |r.0| <= i < |p| - |r.1| ==> p[i] == '/'
  {
    var i := LastSlash(p) + 1;
    var head, tail := p[..i], p[i..];
    assert forall j :: 0 <= j < |tail| ==> tail[j] == p[i + j];
    if head != "" && !AllSlashes(head) then (RStripSlashes(head), tail) else (head, tail)
  }

  /** `"%s_%.1f" % (tileDefLabel, tileOverlapDeg)`, with the overlap already formatted. */
  function TileDeckLabel(tileDefLabel: Option<string>, overlapText: string): string
  {
    tileDefLabel.GetOr("userDefined") + "_" + overlapText
  }

  /** The output name for one input file: same directory, base name prefixed by `tileDeck_<label>_`. */
  function TileDeckFileName(path: string, deckLabel: string): (out: string)
  {
    var (dir, base) := SplitPath(path);
    (if dir != "" then dir + "/" else "") + "tileDeck_" + deckLabel + "_" + base
  }

  lemma {:induction false} LastSlashAfter(a: string, b: string)
    requires '/' !in b
    ensures LastSlash(a + "/" + b) == |a|
    decreases |b|
  {
    var s := a + "/" + b;
    if |b| > 0 {
      assert s[..|s| - 1] == a + "/" + b[..|b| - 1];
      assert b[|b| - 1] in b;
      LastSlashAfter(a, b[..|b| - 1]);
    } else {
      assert s == a + "/";
    }
  }

  lemma {:induction false} NoSlash(b: string)
    requires '/' !in b
    ensures LastSlash(b) == -1
    decreases |b|
  {
    if |b| > 0 {
      assert b[|b| - 1] in b;
      assert forall c :: c in b[..|b| - 1] ==> c in b;
      NoSlash(b[..|b| - 1]);
    }
  }

  /**
   * The output file stays in the input file's directory: splitting the
   * output name gives back the same directory, with the prefixed base name.
   * (A file directly under `/` is the exception: its output name starts `//`.)
   */
  lemma {:induction false} TileDeckSameDirectory(path: string, deckLabel: string)
    requires '/' !in deckLabel
    requires !AllSlashes(SplitPath(path).0) || SplitPath(path).0 == ""
    ensures var (dir, base) := SplitPath(path);
      SplitPath(TileDeckFileName(path, deckLabel)) == (dir, "tileDeck_" + deckLabel + "_" + base)
  {
    var (dir, base) := SplitPath(path);
    var rest := "tileDeck_" + deckLabel + "_" + base;
    assert '/' !in "tileDeck_" && '/' !in "_";
    assert '/' !in rest;
    var out := TileDeckFileName(path, deckLabel);
    if dir == "" {
      assert out == rest;
      NoSlash(rest);
      assert out[..0] == "";
    } else {
      assert out == dir + "/" + rest;
      StripLastNotSlash(path);
      SplitJoin(dir, rest);
    }
  }

  /** Joining a directory that does not end in `/` with a plain name splits back into the two. */
  lemma {:induction false} SplitJoin(dir: string, name: string)
    requires '/' !in name && dir != "" && dir[|dir| - 1] != '/'
    ensures SplitPath(dir + "/" + name) == (dir, name)
  {
    var out := dir + "/" + name;
    LastSlashAfter(dir, name);
    var head := out[..|dir| + 1];
    assert head == dir + "/";
    assert out[|dir| + 1..] == name;
    assert !AllSlashes(head) by {
      assert head[|dir| - 1] == dir[|dir| - 1];
    }
    assert RStripSlashes(head) == dir by {
      assert head[..|head| - 1] == dir;
    }
  }

  /** A stripped directory part never ends in `/`, unless it is all slashes. */
  lemma {:induction false} StripLastNotSlash(path: string)
    requires SplitPath(path).0 != "" && !AllSlashes(SplitPath(path).0)
    ensures SplitPath(path).0[|SplitPath(path).0| - 1] != '/'
  {
  }

  const FileNameKeys: seq<string> := ["mapFileName", "weightsFileName", "pointSourceMask", "surveyMask"]

  /** The input names, output names and map types of one map's files, in `fileNameKeys` order. */
  datatype DeckFiles = DeckFiles(inFileNames: seq<string>, outFileNames: seq<string>, mapTypes: seq<string>)

  /** The files a map contributes for the first `n` of `keys`: those present and not `None`. */
  function DeckFilesOf(mapDict: map<string, Option<string>>, deckLabel: string, keys: seq<string>, n: nat): (r: DeckFiles)
    requires n <= |keys|
    ensures |r.inFileNames| == |r.outFileNames| == |r.mapTypes| <= n
  {
    if n == 0 then DeckFiles([], [], [])
    else
      var prev := DeckFilesOf(mapDict, deckLabel, keys, n - 1);
      var f := keys[n - 1];
      if f in mapDict && mapDict[f].Some? then
        var name := mapDict[f].value;
        DeckFiles(prev.inFileNames + [name], prev.outFileNames + [TileDeckFileName(name, deckLabel)],
                  prev.mapTypes + [f])
      else prev
  }

  /**
   * Every file a map contributes is one of the keys, present and not
   * `None`, with the file it names and that file's tile-deck output name.
   */
  lemma {:induction false} DeckFilesSound(mapDict: map<string, Option<string>>, deckLabel: string,
                                         keys: seq<string>, n: nat)
    requires n <= |keys|
    ensures var r := DeckFilesOf(mapDict, deckLabel, keys, n);
      forall i :: 0 <= i < |r.mapTypes| ==>
        r.mapTypes[i] in keys && r.mapTypes[i] in mapDict && mapDict[r.mapTypes[i]] == Some(r.inFileNames[i]) &&
        r.outFileNames[i] == TileDeckFileName(r.inFileNames[i], deckLabel)
    decreases n
  {
    if n > 0 {
      DeckFilesSound(mapDict, deckLabel, keys, n - 1);
      var prev, r := DeckFilesOf(mapDict, deckLabel, keys, n - 1), DeckFilesOf(mapDict, deckLabel, keys, n);
      var f := keys[n - 1];
      assert f in keys;
      DeckFilesStep(mapDict, deckLabel, keys, n - 1);
      if f in mapDict && mapDict[f].Some? {
        forall i | 0 <= i < |r.mapTypes|
          ensures r.mapTypes[i] in keys && r.mapTypes[i] in mapDict
          ensures mapDict[r.mapTypes[i]] == Some(r.inFileNames[i])
          ensures r.outFileNames[i] == TileDeckFileName(r.inFileNames[i], deckLabel)
        {
          if i < |prev.mapTypes| {
            assert r.mapTypes[i] == prev.mapTypes[i] && r.inFileNames[i] == prev.inFileNames[i];
            assert r.outFileNames[i] == prev.outFileNames[i];
          } else {
            assert r.mapTypes[i] == f && r.inFileNames[i] == mapDict[f].value;
          }
        }
      }
    }
  }

  /** No key the map holds a file for is missed. */
  lemma {:induction false} DeckFilesComplete(mapDict: map<string, Option<string>>, deckLabel: string,
                                            keys: seq<string>, n: nat)
    requires n <= |keys|
    ensures var r := DeckFilesOf(mapDict, deckLabel, keys, n);
      forall j :: 0 <= j < n && keys[j] in mapDict && mapDict[keys[j]].Some? ==> keys[j] in r.mapTypes
    decreases n
  {
    if n > 0 {
      DeckFilesComplete(mapDict, deckLabel, keys, n - 1);
    }
  }

  /** One more key adds that key's file when the map has one. */
  lemma {:induction false} DeckFilesStep(mapDict: map<string, Option<string>>, deckLabel: string, keys: seq<string>, n: nat)
    requires n < |keys|
    ensures var prev, f := DeckFilesOf(mapDict, deckLabel, keys, n), keys[n];
      DeckFilesOf(mapDict, deckLabel, keys, n + 1) ==
        if f in mapDict && mapDict[f].Some? then
          DeckFiles(prev.inFileNames + [mapDict[f].value], prev.outFileNames + [TileDeckFileName(mapDict[f].value, deckLabel)],
                    prev.mapTypes + [f])
        else prev
  {
  }

  /** The loop over `fileNameKeys` in `makeTileDeck`. */
  method TileDeckFiles(mapDict: map<string, Option<string>>, deckLabel: string) returns (r: DeckFiles)
    ensures r == DeckFilesOf(mapDict, deckLabel, FileNameKeys, |FileNameKeys|)
  {
    var inFileNames: seq<string> := [];
    var outFileNames: seq<string> := [];
    var mapTypeList: seq<string> := [];
    var n := 0;
    while n < |FileNameKeys|
      invariant 0 <= n <= |FileNameKeys|
      invariant DeckFiles(inFileNames, outFileNames, mapTypeList) == DeckFilesOf(mapDict, deckLabel, FileNameKeys, n)
    {
      var f := FileNameKeys[n];
      DeckFilesStep(mapDict, deckLabel, FileNameKeys, n);
      if f in mapDict && mapDict[f].Some? {
        inFileNames := inFileNames + [mapDict[f].value];
        outFileNames := outFileNames + [TileDeckFileName(mapDict[f].value, deckLabel)];
        mapTypeList := mapTypeList + [f];
      }
      n := n + 1;
    }
    return DeckFiles(inFileNames, outFileNames, mapTypeList);
  }

  // ------------------------------------------------- position recovery

  predicate OccursAt(s: string, sep: string, k: int)
  {
    0 <= k && k + |sep| <= |s| && s[k..k + |sep|] == sep
  }

  /** The first position at or after `k` where `sep` occurs, or `|s|`. */
  function Find(s: string, sep: string, k: nat): (r: nat)
    requires k <= |s| && |sep| > 0
    ensures k <= r <= |s|
    ensures r < |s| ==> OccursAt(s, sep, r)
    ensures forall j :: k <= j < r ==> !OccursAt(s, sep, j)
    decreases |s| - k
  {
    if k == |s| then |s| else if OccursAt(s, sep, k) then k else Find(s, sep, k + 1)
  }

  /** `s.split(sep)[0]`: everything before the first occurrence of `sep`. */
  function Before(s: string, sep: string): (r: string)
    requires |sep| > 0
    ensures |r| <= |s| && r == s[..|r|]
  {
    s[..Find(s, sep, 0)]
  }

  const RArcminTag: string := "_rArcmin"

  /** The column name `'%s_rArcmin_%dpercent' % (label, p)`, with the percentile already formatted. */
  function PercentileColumn(modelLabel: string, pText: string): string
  {
    modelLabel + RArcminTag + "_" + pText + "percent"
  }

  /**
   * Reading a label back from a column name gives the label, as long as the
   * label itself does not contain `_rArcmin`.
   */
  lemma {:induction false} LabelOfColumn(modelLabel: string, pText: string)
    requires forall k :: !OccursAt(modelLabel, RArcminTag, k)
    ensures Before(PercentileColumn(modelLabel, pText), RArcminTag) == modelLabel
  {
    var s := PercentileColumn(modelLabel, pText);
    var n := |modelLabel|;
    assert OccursAt(s, RArcminTag, n) by {
      assert s[n..n + 8] == RArcminTag;
    }
    forall j | 0 <= j < n ensures !OccursAt(s, RArcminTag, j) {
      if j + 8 <= n {
        assert s[j..j + 8] == modelLabel[j..j + 8];
        assert !OccursAt(modelLabel, RArcminTag, j);
      } else {
        // the tag would have to start inside the label and run into the tag that follows it;
        // only its first character is an underscore
        assert s[n] == '_';
      }
    }
    FindFirst(s, RArcminTag, n);
  }

  lemma {:induction false} FindFirst(s: string, sep: string, n: nat)
    requires |sep| > 0 && OccursAt(s, sep, n)
    requires forall j :: 0 <= j < n ==> !OccursAt(s, sep, j)
    ensures Find(s, sep, 0) == n
  {
  }

  /** The labels found in the first `n` columns: prefixes before `_rArcmin`, first-seen order, `fixed_SNR` skipped. */
  function LabelsOf(keys: seq<string>): (labels: seq<string>)
    ensures forall i, j :: 0 <= i < j < |labels| ==> labels[i] != labels[j]
    ensures forall l :: l in labels <==> exists k :: k in keys && k != "fixed_SNR" && l == Before(k, RArcminTag)
    decreases |keys|
  {
    if |keys| == 0 then []
    else
      var prev := LabelsOf(keys[..|keys| - 1]);
      var key := keys[|keys| - 1];
      assert forall k :: k in keys <==> k in keys[..|keys| - 1] || k == key;
      if key == "fixed_SNR" then prev
      else
        var l := Before(key, RArcminTag);
        if l in prev then prev else prev + [l]
  }

  /** The label loop of `plotPositionRecovery`; any list other than `'all'` replaces the labels. */
  method PlotLabels(keys: seq<string>, labelsToPlot: Option<seq<string>>) returns (labels: seq<string>)
    ensures labelsToPlot.Some? ==> labels == labelsToPlot.value
    ensures labelsToPlot.None? ==> labels == LabelsOf(keys)
  {
    labels := [];
    var i := 0;
    while i < |keys|
      invariant 0 <= i <= |keys|
      invariant labels == LabelsOf(keys[..i])
    {
      assert keys[..i + 1][..i] == keys[..i];
      var key := keys[i];
      if key != "fixed_SNR" {
        var l := Before(key, RArcminTag);
        if l !in labels {
          labels := labels + [l];
        }
      }
      i := i + 1;
    }
    assert keys[..i] == keys;
    if labelsToPlot.Some? {
      labels := labelsToPlot.value;
    }
  }

  /** `rArcmin[(SNR >= lo) & (SNR < hi)]`: the offsets of the objects in one half-open S/N bin. */
  function BinOffsets(snr: seq<real>, rArcmin: seq<real>, lo: real, hi: real): (r: seq<real>)
    requires |snr| == |rArcmin|
    ensures |r| <= |snr|
    decreases |snr|
  {
    if |snr| == 0 then []
    else
      var n := |snr| - 1;
      BinOffsets(snr[..n], rArcmin[..n], lo, hi) + (if lo <= snr[n] < hi then [rArcmin[n]] else [])
  }

  /** How many objects fall in bin `[lo, hi)`. */
  function CountIn(snr: seq<real>, lo: real, hi: real): nat
    decreases |snr|
  {
    if |snr| == 0 then 0 else CountIn(snr[..|snr| - 1], lo, hi) + (if lo <= snr[|snr| - 1] < hi then 1 else 0)
  }

  /** The bin holds one offset per object whose S/N lies in it. */
  lemma {:induction false} BinOffsetsCount(snr: seq<real>, rArcmin: seq<real>, lo: real, hi: real)
    requires |snr| == |rArcmin|
    ensures |BinOffsets(snr, rArcmin, lo, hi)| == CountIn(snr, lo, hi)
    decreases |snr|
  {
    if |snr| > 0 {
      BinOffsetsCount(snr[..|snr| - 1], rArcmin[..|snr| - 1], lo, hi);
    }
  }

  /** With increasing edges the half-open bins are disjoint: no object is counted in two bins. */
  lemma {:induction false} BinsDisjoint(edges: seq<real>, i: nat, j: nat, x: real)
    requires StrictlyIncreasing(edges) && i < j && j + 1 < |edges|
    ensures !(edges[i] <= x < edges[i + 1] && edges[j] <= x < edges[j + 1])
  {
    assert edges[i + 1] <= edges[j];
  }

  /**
   * One percentile column of `positionRecoveryTest`: per bin, the given
   * percentile of the offsets, or 0 for an empty bin. `percentile` stands
   * for `np.percentile`.
   */
  function PercentileValues(snr: seq<real>, rArcmin: seq<real>, edges: seq<real>, p: int,
                            percentile: (seq<real>, int) -> real): (vals: seq<real>)
    requires |snr| == |rArcmin| && |edges| >= 1
    ensures |vals| == |edges| - 1
  {
    seq(|edges| - 1, i requires 0 <= i < |edges| - 1 =>
      var b := BinOffsets(snr, rArcmin, edges[i], edges[i + 1]);
      if |b| > 0 then percentile(b, p) else 0.0)
  }

  /** A bin holding no object gets 0; a bin holding objects gets the percentile of their offsets. */
  lemma {:induction false} PercentileEmptyBin(snr: seq<real>, rArcmin: seq<real>, edges: seq<real>, p: int,
                                              percentile: (seq<real>, int) -> real, i: nat)
    requires |snr| == |rArcmin| && i + 1 < |edges|
    ensures var v := PercentileValues(snr, rArcmin, edges, p, percentile)[i];
      (CountIn(snr, edges[i], edges[i + 1]) == 0 ==> v == 0.0) &&
      (CountIn(snr, edges[i], edges[i + 1]) > 0 ==> v == percentile(BinOffsets(snr, rArcmin, edges[i], edges[i + 1]), p))
  {
    BinOffsetsCount(snr, rArcmin, edges[i], edges[i + 1]);
  }

  /** The loop over bins for one percentile. */
  method PercentileLoop(snr: seq<real>, rArcmin: seq<real>, edges: seq<real>, p: int,
                        percentile: (seq<real>, int) -> real) returns (vals: seq<real>)
    requires |snr| == |rArcmin| && |edges| >= 1
    ensures vals == PercentileValues(snr, rArcmin, edges, p, percentile)
  {
    var out := seq(|edges| - 1, i => 0.0);
    var i := 0;
    while i < |edges| - 1
      invariant 0 <= i <= |edges| - 1
      invariant |out| == |edges| - 1
      invariant forall k :: 0 <= k < i ==> out[k] == PercentileValues(snr, rArcmin, edges, p, percentile)[k]
      invariant forall k :: i <= k < |out| ==> out[k] == 0.0
    {
      var binOffsets := BinOffsets(snr, rArcmin, edges[i], edges[i + 1]);
      if |binOffsets| > 0 {
        out := out[i := percentile(binOffsets, p)];
      }
      i := i + 1;
    }
    vals := out;
    assert forall k :: 0 <= k < |vals| ==> vals[k] == PercentileValues(snr, rArcmin, edges, p, percentile)[k];
  }
}
