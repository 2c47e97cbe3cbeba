/**
 * Configuration handling of nemo's `startUp.py`: the rewriting `parseConfigFile`
 * applies to the dictionary loaded from the YAML file, and the parts of
 * `NemoConfig` that choose the tiles a process works on and switch between
 * filter sets in multi-pass mode.
 */
module StartUp {
  import opened Common

  /** A value loaded from the YAML configuration. */
  datatype Value =
    | Null
    | Bool(b: bool)
    | Int(i: int)
    | Real(r: real)
    | Str(s: string)
    | List(items: seq<Value>)
    | Dict(fields: map<string, Value>)
    | NumDict(byNum: map<int, Value>) // a mapping keyed by integers: the filter-set options

  type Fields = map<string, Value>

  /** Python's `v == True`: `True` itself, and the numbers 1 and 1.0, which compare equal to it. */
  predicate PyTrue(v: Value)
  {
    v == Bool(true) || v == Int(1) || v == Real(1.0)
  }

  /** The exceptions the configuration code raises. */
  datatype ConfigError =
    | MissingKey(key: string)          // KeyError
    | Malformed(key: string)           // TypeError / AttributeError on a value of the wrong type
    | FilterMerge                      // KeyError or TypeError inside the `allFilters` merge
    | DuplicateTileName(name: Value)
    | NoMatchingTiles                  // `tileNameList` matches no tile
    | SingleProcessMPI                 // MPI asked for, but only one process
    | UnknownFilterSet                 // a set number missing from `filterSetOptions`
    | NoFilterSets                     // `self.filterSets[-1]` on an empty list
    | NotYmlFile                       // no `outputDir` and a configuration name without ".yml"

  function Get(d: Fields, k: string): Value
  {
    if k in d then d[k] else Null
  }

  // ------------------------------------------------- per-entry list updates

  /**
   * The loops `for d in parDict[key]: ...` that rewrite every entry of a list
   * of dictionaries; the first entry that raises stops the parse.
   */
  function UpdateAll(items: seq<Value>, key: string, step: Fields -> Result<Value, ConfigError>)
    : (r: Result<seq<Value>, ConfigError>)
    ensures r.Ok? <==> forall i :: 0 <= i < |items| ==> items[i].Dict? && step(items[i].fields).Ok?
    ensures r.Ok? ==>
      |r.value| == |items| &&
      (forall i :: 0 <= i < |items| ==> r.value[i] == step(items[i].fields).value)
    decreases |items|
  {
    if |items| == 0 then Ok([])
    else
      var prev :- UpdateAll(items[..|items| - 1], key, step);
      var last := items[|items| - 1];
      if !last.Dict? then Err(Malformed(key))
      else
        var d :- step(last.fields);
        assert forall i :: 0 <= i < |items| - 1 ==> items[..|items| - 1][i] == items[i];
        Ok(prev + [d])
  }

  /** Loop form of `UpdateAll`. */
  method UpdateEach(items: seq<Value>, key: string, step: Fields -> Result<Value, ConfigError>)
    returns (r: Result<seq<Value>, ConfigError>)
    ensures r == UpdateAll(items, key, step)
  {
    var done: seq<Value> := [];
    var i := 0;
    while i < |items|
      invariant 0 <= i <= |items|
      invariant UpdateAll(items[..i], key, step) == Ok(done)
    {
      assert items[..i + 1][..i] == items[..i];
      if !items[i].Dict? {
        UpdateAllErrExtends(items, i + 1, key, step);
        return Err(Malformed(key));
      }
      var d := step(items[i].fields);
      if d.Err? {
        UpdateAllErrExtends(items, i + 1, key, step);
        return Err(d.error);
      }
      done := done + [d.value];
      i := i + 1;
    }
    assert items[..i] == items;
    return Ok(done);
  }

  /** Once a prefix of the list raises, the whole loop raises the same exception. */
  lemma {:induction false} UpdateAllErrExtends(items: seq<Value>, n: nat, key: string,
                                              step: Fields -> Result<Value, ConfigError>)
    requires n <= |items| && UpdateAll(items[..n], key, step).Err?
    ensures UpdateAll(items, key, step) == UpdateAll(items[..n], key, step)
    decreases |items|
  {
    if n < |items| {
      var shorter := items[..|items| - 1];
      assert shorter[..n] == items[..n];
      UpdateAllErrExtends(shorter, n, key, step);
    } else {
      assert items[..n] == items;
    }
  }

  /** Rewrites every entry of the list `pd[key]`; a missing key or a non-list raises. */
  function UpdateList(pd: Fields, key: string, step: Fields -> Result<Value, ConfigError>)
    : (r: Result<Fields, ConfigError>)
    ensures r.Ok? ==>
      key in pd && pd[key].List? && r.value.Keys == pd.Keys &&
      (forall k :: k in pd && k != key ==> r.value[k] == pd[k]) &&
      UpdateAll(pd[key].items, key, step).Ok? &&
      r.value[key] == List(UpdateAll(pd[key].items, key, step).value)
  {
    if key !in pd then Err(MissingKey(key))
    else if !pd[key].List? then Err(Malformed(key))
    else
      var items :- UpdateAll(pd[key].items, key, step);
      Ok(pd[key := List(items)])
  }

  method UpdateListLoop(pd: Fields, key: string, step: Fields -> Result<Value, ConfigError>)
    returns (r: Result<Fields, ConfigError>)
    ensures r == UpdateList(pd, key, step)
  {
    if key !in pd {
      return Err(MissingKey(key));
    }
    if !pd[key].List? {
      return Err(Malformed(key));
    }
    var items := UpdateEach(pd[key].items, key, step);
    if items.Err? {
      return Err(items.error);
    }
    return Ok(pd[key := List(items.value)]);
  }

  // ------------------------------------------------------------ mask keys

  const MaskKeys: seq<string> := ["pointSourceMask", "surveyMask", "maskPointSourcesFromCatalog",
    "apodizeUsingSurveyMask", "maskSubtractedPointSources", "RADecSection", "maskHoleDilationFactor"]

  /**
   * One `unfilteredMaps` entry after the mask keys are copied in: each of the
   * seven takes the top-level value, or None when the top level lacks it;
   * `weightsType` defaults to 'invVar'; every other key is kept.
   */
  function WithMaskKeys(pd: Fields, m: Fields): (r: Fields)
    ensures forall k :: k in MaskKeys ==> k in r && r[k] == Get(pd, k)
    ensures "weightsType" in r
    ensures r["weightsType"] == (if "weightsType" in m then m["weightsType"] else Str("invVar"))
    ensures forall k :: k in m && k !in MaskKeys ==> k in r && r[k] == m[k]
    ensures forall k :: k in r ==> k in m || k in MaskKeys || k == "weightsType"
  {
    var masked := m + map k | k in MaskKeys :: Get(pd, k);
    if "weightsType" in masked then masked else masked["weightsType" := Str("invVar")]
  }

  function MaskStep(pd: Fields): Fields -> Result<Value, ConfigError>
  {
    m => Ok(Dict(WithMaskKeys(pd, m)))
  }

  /** Every map entry, after the mask-key loop, carries the seven mask keys and a weights type. */
  lemma {:induction false} MaskKeysEverywhere(pd: Fields)
    requires UpdateList(pd, "unfilteredMaps", MaskStep(pd)).Ok?
    ensures forall i :: 0 <= i < |pd["unfilteredMaps"].items| ==>
      var m := UpdateList(pd, "unfilteredMaps", MaskStep(pd)).value["unfilteredMaps"].items[i];
      m.Dict? && "weightsType" in m.fields && forall k :: k in MaskKeys ==> k in m.fields && m.fields[k] == Get(pd, k)
  {
    var items := pd["unfilteredMaps"].items;
    var u := UpdateAll(items, "unfilteredMaps", MaskStep(pd));
    forall i | 0 <= i < |items|
      ensures u.value[i] == Dict(WithMaskKeys(pd, items[i].fields))
    {
      assert u.value[i] == MaskStep(pd)(items[i].fields).value;
    }
  }

  // ------------------------------------------------------ allFilters merge

  function BaseFor(a: Fields, key: string): Value
  {
    if key in a then a[key] else Dict(map[])
  }

  /** Assigning into `newDict[key][subkey]` fails: the filter's sub-dictionary is not empty and `allFilters` has no dictionary there. */
  predicate SubMergeFails(base: Fields, s: string, w: Value)
  {
    w.Dict? && w.fields != map[] && (s !in base || !base[s].Dict?)
  }

  predicate KeyMergeFails(a: Fields, key: string, v: Value)
  {
    v.Dict? &&
    var base := BaseFor(a, key);
    if base.Dict? then exists s :: s in v.fields && SubMergeFails(base.fields, s, v.fields[s])
    else v.fields != map[]
  }

  /** Second level of the merge: a nested dictionary of the filter updates the copy key by key. */
  function MergedSub(base: Fields, d: Fields): Fields
    requires forall s :: s in d ==> !SubMergeFails(base, s, d[s])
  {
    map s | s in base.Keys + d.Keys && (s in d ==> !(d[s] == Dict(map[]) && s !in base)) ::
      if s !in d then base[s]
      else if !d[s].Dict? then d[s]
      else if d[s].fields == map[] then base[s]
      else (assert !SubMergeFails(base, s, d[s]); Dict(base[s].fields + d[s].fields))
  }

  function MergedValue(a: Fields, key: string, v: Value): Value
    requires !KeyMergeFails(a, key, v)
  {
    if !v.Dict? then v
    else
      var base := BaseFor(a, key);
      if !base.Dict? then base
      else Dict(MergedSub(base.fields, v.fields))
  }

  /** One `mapFilters` entry merged over a copy of `allFilters`. */
  function MergeFilter(allFilters: Value, f: Fields): (r: Result<Value, ConfigError>)
    ensures f == map[] ==> r == Ok(allFilters)
    ensures r.Ok? && f != map[] ==>
      allFilters.Dict? && r.value.Dict? &&
      r.value.fields.Keys == allFilters.fields.Keys + f.Keys
  {
    if f == map[] then Ok(allFilters)
    else if !allFilters.Dict? then Err(FilterMerge)
    else if exists k :: k in f && KeyMergeFails(allFilters.fields, k, f[k]) then Err(FilterMerge)
    else
      var a := allFilters.fields;
      Ok(Dict(map k | k in a.Keys + f.Keys :: if k in f then MergedValue(a, k, f[k]) else a[k]))
  }

  /** The filter's own top-level values win over `allFilters`. */
  lemma {:induction false} MergeFilterOwnValues(allFilters: Value, f: Fields, k: string)
    requires MergeFilter(allFilters, f).Ok? && k in f && !f[k].Dict?
    ensures MergeFilter(allFilters, f).value.Dict?
    ensures MergeFilter(allFilters, f).value.fields[k] == f[k]
  {
  }

  /** Keys the filter does not mention keep their `allFilters` value. */
  lemma {:induction false} MergeFilterInherits(allFilters: Value, f: Fields, k: string)
    requires MergeFilter(allFilters, f).Ok? && allFilters.Dict?
    requires k in allFilters.fields && k !in f
    ensures MergeFilter(allFilters, f).value.Dict?
    ensures MergeFilter(allFilters, f).value.fields[k] == allFilters.fields[k]
  {
  }

  /**
   * One level down, the filter's nested values replace those of `allFilters`
   * and the nested keys it does not mention are inherited.
   */
  lemma {:induction false} MergeFilterNested(allFilters: Value, f: Fields, k: string, s: string)
    requires MergeFilter(allFilters, f).Ok? && k in f && f[k].Dict?
    ensures MergeFilter(allFilters, f).value.Dict? && k in MergeFilter(allFilters, f).value.fields
    ensures s in f[k].fields && !f[k].fields[s].Dict? ==>
      var m := MergeFilter(allFilters, f).value.fields[k];
      m.Dict? && s in m.fields && m.fields[s] == f[k].fields[s]
    ensures (allFilters.Dict? && k in allFilters.fields && allFilters.fields[k].Dict? &&
             s in allFilters.fields[k].fields && s !in f[k].fields) ==>
      var m := MergeFilter(allFilters, f).value.fields[k];
      m.Dict? && s in m.fields && m.fields[s] == allFilters.fields[k].fields[s]
  {
    var v := MergeFilter(allFilters, f).value;
    assert f != map[];
    assert v.fields[k] == MergedValue(allFilters.fields, k, f[k]);
  }

  /**
   * The guards test the filter's own dictionary, never the copy: a non-empty
   * third-level dictionary whose parent is missing from `allFilters` raises.
   */
  lemma {:induction false} MergeFilterMissingNested(allFilters: Value, f: Fields, k: string, s: string)
    requires allFilters.Dict? && k in f && f[k].Dict? && s in f[k].fields
    requires f[k].fields[s].Dict? && f[k].fields[s].fields != map[]
    requires k !in allFilters.fields || (allFilters.fields[k].Dict? && s !in allFilters.fields[k].fields)
    ensures MergeFilter(allFilters, f) == Err(FilterMerge)
  {
    assert SubMergeFails(BaseFor(allFilters.fields, k).fields, s, f[k].fields[s]);
    assert KeyMergeFails(allFilters.fields, k, f[k]);
  }

  /**
   * The `allFilters` step: when present, each `mapFilters` entry is replaced by
   * its merge over a fresh copy; `allFilters` itself is left as it was.
   */
  function MergeStep(pd: Fields): (r: Result<Fields, ConfigError>)
    ensures r.Ok? ==> r.value.Keys == pd.Keys && forall k :: k in pd && k != "mapFilters" ==> r.value[k] == pd[k]
  {
    if "allFilters" in pd then
      var allFilters := pd["allFilters"];
      UpdateList(pd, "mapFilters", f => MergeFilter(allFilters, f))
    else Ok(pd)
  }

  method MergeAllFilters(pd: Fields) returns (r: Result<Fields, ConfigError>)
    ensures r == MergeStep(pd)
  {
    if "allFilters" in pd {
      var allFilters := pd["allFilters"];
      r := UpdateListLoop(pd, "mapFilters", f => MergeFilter(allFilters, f));
    } else {
      r := Ok(pd);
    }
  }

  // ------------------------------------------------------ filter parameters

  /** `filtDict['params'].update(...)`, key by key. */
  function SetParams(f: Fields, updates: Fields): (r: Result<Value, ConfigError>)
    ensures r.Ok? <==> "params" in f && f["params"].Dict?
    ensures r.Ok? ==>
      r.value.Dict? && r.value.fields.Keys == f.Keys &&
      (forall k :: k in f && k != "params" ==> r.value.fields[k] == f[k]) &&
      r.value.fields["params"] == Dict(f["params"].fields + updates)
  {
    if "params" !in f then Err(MissingKey("params"))
    else if !f["params"].Dict? then Err(Malformed("params"))
    else Ok(Dict(f["params" := Dict(f["params"].fields + updates)]))
  }

  const PhotFilterSaves: Fields :=
    map["saveRMSMap" := Bool(true), "saveFreqWeightMap" := Bool(true), "saveFilter" := Bool(true)]

  /** The filter named by `photFilter` always saves its noise map, weights and filter. */
  function PhotFilterEntry(photFilter: Value, f: Fields): (r: Result<Value, ConfigError>)
    ensures r.Ok? ==> "label" in f
    ensures r.Ok? && f["label"] != photFilter ==> r.value == Dict(f)
    ensures r.Ok? && f["label"] == photFilter ==> r == SetParams(f, PhotFilterSaves)
  {
    if "label" !in f then Err(MissingKey("label"))
    else if f["label"] == photFilter then SetParams(f, PhotFilterSaves)
    else Ok(Dict(f))
  }

  function PhotFilterStep(pd: Fields): (r: Result<Fields, ConfigError>)
    ensures r.Ok? ==> r.value.Keys == pd.Keys + {"photFilter"}
    ensures r.Ok? ==> r.value["photFilter"] == Get(pd, "photFilter")
    ensures r.Ok? ==> forall k :: k in pd && k != "mapFilters" ==> r.value[k] == pd[k]
  {
    if "photFilter" !in pd then Ok(pd["photFilter" := Null])
    else
      var photFilter := pd["photFilter"];
      UpdateList(pd, "mapFilters", f => PhotFilterEntry(photFilter, f))
  }

  method ApplyPhotFilter(pd: Fields) returns (r: Result<Fields, ConfigError>)
    ensures r == PhotFilterStep(pd)
  {
    if "photFilter" !in pd {
      return Ok(pd["photFilter" := Null]);
    }
    var photFilter := pd["photFilter"];
    r := UpdateListLoop(pd, "mapFilters", f => PhotFilterEntry(photFilter, f));
  }

  /** A global `noiseMaskCatalog` that is not None is copied into every filter's parameters. */
  function NoiseMaskStep(pd: Fields): (r: Result<Fields, ConfigError>)
    ensures r.Ok? ==> r.value.Keys == pd.Keys
    ensures r.Ok? ==> forall k :: k in pd && k != "mapFilters" ==> r.value[k] == pd[k]
    ensures Get(pd, "noiseMaskCatalog") == Null ==> r == Ok(pd)
  {
    if "noiseMaskCatalog" in pd && pd["noiseMaskCatalog"] != Null then
      var catalog := pd["noiseMaskCatalog"];
      UpdateList(pd, "mapFilters", f => SetParams(f, map["noiseMaskCatalog" := catalog]))
    else Ok(pd)
  }

  method ApplyNoiseMask(pd: Fields) returns (r: Result<Fields, ConfigError>)
    ensures r == NoiseMaskStep(pd)
  {
    if "noiseMaskCatalog" in pd && pd["noiseMaskCatalog"] != Null {
      var catalog := pd["noiseMaskCatalog"];
      r := UpdateListLoop(pd, "mapFilters", f => SetParams(f, map["noiseMaskCatalog" := catalog]));
    } else {
      r := Ok(pd);
    }
  }

  // ----------------------------------------------------------- tile names

  /** `str.upper` on the ASCII letters. */
  function UpperChar(c: char): char
  {
    if 'a' <= c <= 'z' then (c as int - 32) as char else c
  }

  function Upper(s: string): (r: string)
    ensures |r| == |s|
    ensures forall i :: 0 <= i < |s| ==> !('a' <= r[i] <= 'z')
  {
    seq(|s|, i requires 0 <= i < |s| => UpperChar(s[i]))
  }

  /** Upper-casing twice is upper-casing once. */
  lemma {:induction false} UpperIdempotent(s: string)
    ensures Upper(Upper(s)) == Upper(s)
  {
    forall i | 0 <= i < |s| ensures Upper(Upper(s))[i] == Upper(s)[i] {
      assert !('a' <= Upper(s)[i] <= 'z');
    }
  }

  function UpperTileName(t: Fields): (r: Result<Value, ConfigError>)
    ensures r.Ok? <==> "tileName" in t && t["tileName"].Str?
    ensures r.Ok? ==> r.value == Dict(t["tileName" := Str(Upper(t["tileName"].s))])
  {
    if "tileName" !in t then Err(MissingKey("tileName"))
    else if !t["tileName"].Str? then Err(Malformed("tileName"))
    else Ok(Dict(t["tileName" := Str(Upper(t["tileName"].s))]))
  }

  function UpperNames(items: seq<Value>): (r: Result<seq<Value>, ConfigError>)
    ensures r.Ok? <==> forall i :: 0 <= i < |items| ==> items[i].Str?
    ensures r.Ok? ==>
      |r.value| == |items| &&
      (forall i :: 0 <= i < |items| ==> r.value[i] == Str(Upper(items[i].s)))
  {
    if forall i :: 0 <= i < |items| ==> items[i].Str? then
      Ok(seq(|items|, i requires 0 <= i < |items| => Str(Upper(items[i].s))))
    else Err(Malformed("tileNameList"))
  }

  /** The loop building the upper-cased `tileNameList`. */
  method UpperNameList(items: seq<Value>) returns (r: Result<seq<Value>, ConfigError>)
    ensures r == UpperNames(items)
  {
    var newList: seq<Value> := [];
    var i := 0;
    while i < |items|
      invariant 0 <= i <= |items|
      invariant |newList| == i
      invariant forall j :: 0 <= j < i ==> items[j].Str? && newList[j] == Str(Upper(items[j].s))
    {
      if !items[i].Str? {
        return Err(Malformed("tileNameList"));
      }
      newList := newList + [Str(Upper(items[i].s))];
      i := i + 1;
    }
    assert UpperNames(items).Ok?;
    assert newList == UpperNames(items).value;
    return Ok(newList);
  }

  /** Tile names in `tileDefinitions` (when it is a list) and in `tileNameList` are upper-cased. */
  function UpperCaseStep(pd: Fields): (r: Result<Fields, ConfigError>)
    ensures r.Ok? ==> r.value.Keys == pd.Keys
    ensures r.Ok? ==> forall k :: k in pd && k != "tileDefinitions" && k != "tileNameList" ==> r.value[k] == pd[k]
    ensures r.Ok? && "tileDefinitions" in pd && pd["tileDefinitions"].List? ==>
      var defs := pd["tileDefinitions"].items;
      r.value["tileDefinitions"].List? && |r.value["tileDefinitions"].items| == |defs| &&
      forall i :: 0 <= i < |defs| ==>
        defs[i].Dict? && UpperTileName(defs[i].fields).Ok? &&
        r.value["tileDefinitions"].items[i] == UpperTileName(defs[i].fields).value
  {
    var pd1 :- if "tileDefinitions" in pd && pd["tileDefinitions"].List?
      then UpdateList(pd, "tileDefinitions", UpperTileName) else Ok(pd);
    if "tileNameList" in pd1 then
      if !pd1["tileNameList"].List? then Err(Malformed("tileNameList"))
      else
        var names :- UpperNames(pd1["tileNameList"].items);
        Ok(pd1["tileNameList" := List(names)])
    else Ok(pd1)
  }

  method ApplyUpperCase(pd: Fields) returns (r: Result<Fields, ConfigError>)
    ensures r == UpperCaseStep(pd)
  {
    var pd1 := pd;
    if "tileDefinitions" in pd && pd["tileDefinitions"].List? {
      var u := UpdateListLoop(pd, "tileDefinitions", UpperTileName);
      if u.Err? {
        return Err(u.error);
      }
      pd1 := u.value;
    }
    if "tileNameList" in pd1 {
      if !pd1["tileNameList"].List? {
        return Err(Malformed("tileNameList"));
      }
      var names := UpperNameList(pd1["tileNameList"].items);
      if names.Err? {
        return Err(names.error);
      }
      return Ok(pd1["tileNameList" := List(names.value)]);
    }
    return Ok(pd1);
  }

  function TileNames(defs: seq<Value>): (names: seq<Value>)
    ensures |names| == |defs|
  {
    seq(|defs|, i requires 0 <= i < |defs| =>
      if defs[i].Dict? && "tileName" in defs[i].fields then defs[i].fields["tileName"] else Null)
  }

  /** The duplicate check over `tileDefinitions`: the exception of the first entry that raises. */
  function TileNameCheck(defs: seq<Value>): Option<ConfigError>
    decreases |defs|
  {
    if |defs| == 0 then None
    else
      var prefix := defs[..|defs| - 1];
      var e := TileNameCheck(prefix);
      if e.Some? then e
      else
        var last := defs[|defs| - 1];
        if !last.Dict? then Some(Malformed("tileDefinitions"))
        else if "tileName" !in last.fields then Some(MissingKey("tileName"))
        else if last.fields["tileName"] in TileNames(prefix) then Some(DuplicateTileName(last.fields["tileName"]))
        else None
  }

  /** Every tile definition is a dictionary with a `tileName`. */
  predicate AllNamed(defs: seq<Value>)
  {
    forall i :: 0 <= i < |defs| ==> defs[i].Dict? && "tileName" in defs[i].fields
  }

  /** No two tile definitions share a name. */
  predicate DistinctNames(defs: seq<Value>)
  {
    forall i, j :: 0 <= i < j < |defs| ==> TileNames(defs)[i] != TileNames(defs)[j]
  }

  /** The check passes exactly when every definition has a name and no two names are equal. */
  lemma {:induction false} TileNameCheckPasses(defs: seq<Value>)
    ensures TileNameCheck(defs).None? <==> AllNamed(defs) && DistinctNames(defs)
  {
    if TileNameCheck(defs).None? {
      TileNameCheckSound(defs);
    } else {
      TileNameCheckComplete(defs);
    }
  }

  /** A passing check means every definition has a name and no two names are equal. */
  lemma {:induction false} TileNameCheckSound(defs: seq<Value>)
    requires TileNameCheck(defs).None?
    ensures AllNamed(defs) && DistinctNames(defs)
    decreases |defs|
  {
    if |defs| > 0 {
      var prefix := defs[..|defs| - 1];
      var n := |defs| - 1;
      assert TileNameCheck(prefix).None?;
      TileNameCheckSound(prefix);
      var names, pnames := TileNames(defs), TileNames(prefix);
      assert forall i :: 0 <= i < |prefix| ==> prefix[i] == defs[i] && pnames[i] == names[i];
      forall i, j | 0 <= i < j < |defs| ensures names[i] != names[j] {
        if j == n {
          assert names[i] == pnames[i];
        } else {
          assert pnames[i] != pnames[j];
        }
      }
    }
  }

  /** A failing check means some definition has no name or two names are equal. */
  lemma {:induction false} TileNameCheckComplete(defs: seq<Value>)
    requires TileNameCheck(defs).Some?
    ensures !AllNamed(defs) || !DistinctNames(defs)
    decreases |defs|
  {
    var prefix := defs[..|defs| - 1];
    var n := |defs| - 1;
    var last := defs[n];
    var names, pnames := TileNames(defs), TileNames(prefix);
    assert forall i :: 0 <= i < |prefix| ==> prefix[i] == defs[i] && pnames[i] == names[i];
    if TileNameCheck(prefix).Some? {
      TileNameCheckComplete(prefix);
      if !AllNamed(prefix) {
        var i :| 0 <= i < |prefix| && !(prefix[i].Dict? && "tileName" in prefix[i].fields);
        assert !(defs[i].Dict? && "tileName" in defs[i].fields);
      } else {
        var i, j :| 0 <= i < j < |prefix| && pnames[i] == pnames[j];
        assert names[i] == names[j];
      }
    } else if last.Dict? && "tileName" in last.fields {
      var i :| 0 <= i < |pnames| && pnames[i] == last.fields["tileName"];
      assert names[i] == names[n];
    }
  }

  /** The loop over `tileDefinitions` with its `checkList`. */
  method CheckTileNames(defs: seq<Value>) returns (err: Option<ConfigError>)
    ensures err == TileNameCheck(defs)
  {
    var checkList: seq<Value> := [];
    var i := 0;
    while i < |defs|
      invariant 0 <= i <= |defs|
      invariant TileNameCheck(defs[..i]).None?
      invariant checkList == TileNames(defs[..i])
    {
      assert defs[..i + 1][..i] == defs[..i];
      if !defs[i].Dict? {
        TileNameCheckExtends(defs, i + 1);
        return Some(Malformed("tileDefinitions"));
      }
      if "tileName" !in defs[i].fields {
        TileNameCheckExtends(defs, i + 1);
        return Some(MissingKey("tileName"));
      }
      var name := defs[i].fields["tileName"];
      if name in checkList {
        TileNameCheckExtends(defs, i + 1);
        return Some(DuplicateTileName(name));
      }
      checkList := checkList + [name];
      i := i + 1;
    }
    assert defs[..i] == defs;
    err := None;
  }

  /** Once a prefix of the definitions fails the check, the whole list fails it the same way. */
  lemma {:induction false} TileNameCheckExtends(defs: seq<Value>, n: nat)
    requires n <= |defs| && TileNameCheck(defs[..n]).Some?
    ensures TileNameCheck(defs) == TileNameCheck(defs[..n])
    decreases |defs|
  {
    if n < |defs| {
      var shorter := defs[..|defs| - 1];
      assert shorter[..n] == defs[..n];
      TileNameCheckExtends(shorter, n);
    } else {
      assert defs[..n] == defs;
    }
  }

  /** The duplicate check runs on `tileDefinitions` when that is a list. */
  function DuplicateStep(pd: Fields): (r: Result<Fields, ConfigError>)
    ensures r.Ok? ==> r.value == pd
  {
    if "tileDefinitions" in pd && pd["tileDefinitions"].List? then
      var e := TileNameCheck(pd["tileDefinitions"].items);
      if e.Some? then Err(e.value) else Ok(pd)
    else Ok(pd)
  }

  /** Two tile definitions with equal names make the duplicate check raise. */
  lemma {:induction false} CaseInsensitiveDuplicate(pd: Fields, i: nat, j: nat)
    requires "tileDefinitions" in pd && pd["tileDefinitions"].List?
    requires var defs := pd["tileDefinitions"].items;
      i < j < |defs| && defs[i].Dict? && defs[j].Dict? &&
      "tileName" in defs[i].fields && "tileName" in defs[j].fields &&
      defs[i].fields["tileName"] == defs[j].fields["tileName"]
    ensures DuplicateStep(pd).Err?
  {
    var defs := pd["tileDefinitions"].items;
    TileNameCheckPasses(defs);
    assert TileNames(defs)[i] == TileNames(defs)[j];
    assert !DistinctNames(defs);
  }

  // ------------------------------------------------------------- defaults

  /** `if key not in parDict: parDict[key] = value`. */
  function Default(pd: Fields, key: string, value: Value): (r: Fields)
    ensures r.Keys == pd.Keys + {key}
    ensures key in pd ==> r == pd
    ensures key !in pd ==> r[key] == value && forall k :: k in pd ==> r[k] == pd[k]
  {
    if key in pd then pd else pd[key := value]
  }

  /** A run of defaults, applied in order. */
  function Defaults(pd: Fields, ds: seq<(string, Value)>): (r: Fields)
    ensures forall k :: k in pd ==> k in r && r[k] == pd[k]
    ensures forall i :: 0 <= i < |ds| ==> ds[i].0 in r
    ensures forall k :: k in r ==> k in pd || exists i :: 0 <= i < |ds| && ds[i].0 == k
    decreases |ds|
  {
    if |ds| == 0 then pd
    else
      var prev := Defaults(pd, ds[..|ds| - 1]);
      var r := Default(prev, ds[|ds| - 1].0, ds[|ds| - 1].1);
      assert forall i :: 0 <= i < |ds| - 1 ==> ds[..|ds| - 1][i] == ds[i];
      r
  }

  /** An absent key takes the value its (single) entry in the run gives it. */
  lemma {:induction false} DefaultsAbsent(pd: Fields, ds: seq<(string, Value)>, i: nat)
    requires i < |ds| && ds[i].0 !in pd
    requires forall j :: 0 <= j < |ds| && j != i ==> ds[j].0 != ds[i].0
    ensures Defaults(pd, ds)[ds[i].0] == ds[i].1
    decreases |ds|
  {
    var prev := Defaults(pd, ds[..|ds| - 1]);
    if i < |ds| - 1 {
      DefaultsAbsent(pd, ds[..|ds| - 1], i);
    } else {
      assert forall j :: 0 <= j < |ds| - 1 ==> ds[..|ds| - 1][j] == ds[j];
    }
  }

  const DefaultsBeforeTiling: seq<(string, Value)> := [
    ("catalogCuts", List([])), ("measureShapes", Bool(false)), ("rejectBorder", Int(0)),
    ("undoPixelWindow", Bool(true)), ("fitQ", Bool(true))]

  const DefaultsAfterGNFW: seq<(string, Value)> := [
    ("forcedPhotometryCatalog", Null), ("removeRings", Bool(true)), ("ringThresholdSigma", Int(3)),
    ("haltOnPositionRecoveryProblem", Bool(false))]

  /** `selFnOptions`, when given, gets method 'fast' unless it names one. */
  function SelFnMethodStep(pd: Fields): (r: Result<Fields, ConfigError>)
    ensures r.Ok? ==> r.value.Keys == pd.Keys && forall k :: k in pd && k != "selFnOptions" ==> r.value[k] == pd[k]
    ensures r.Ok? && "selFnOptions" in pd ==>
      var o := r.value["selFnOptions"];
      pd["selFnOptions"].Dict? && o.Dict? && "method" in o.fields &&
      o.fields["method"] == (if "method" in pd["selFnOptions"].fields then pd["selFnOptions"].fields["method"] else Str("fast"))
  {
    if "selFnOptions" in pd then
      if !pd["selFnOptions"].Dict? then Err(Malformed("selFnOptions"))
      else
        var o := pd["selFnOptions"].fields;
        if "method" in o then Ok(pd) else Ok(pd["selFnOptions" := Dict(o["method" := Str("fast")])])
    else Ok(pd)
  }

  /** `GNFWParams` defaults to 'default' and is copied into every filter's parameters. */
  function GNFWStep(pd: Fields): (r: Result<Fields, ConfigError>)
    ensures r.Ok? ==> r.value.Keys == pd.Keys + {"GNFWParams"}
    ensures r.Ok? ==> r.value["GNFWParams"] == Default(pd, "GNFWParams", Str("default"))["GNFWParams"]
    ensures r.Ok? ==> forall k :: k in pd && k != "mapFilters" ==> r.value[k] == pd[k]
  {
    var pd1 := Default(pd, "GNFWParams", Str("default"));
    var gnfw := pd1["GNFWParams"];
    UpdateList(pd1, "mapFilters", f => SetParams(f, map["GNFWParams" := gnfw]))
  }

  method ApplyGNFW(pd: Fields) returns (r: Result<Fields, ConfigError>)
    ensures r == GNFWStep(pd)
  {
    var pd1 := Default(pd, "GNFWParams", Str("default"));
    var gnfw := pd1["GNFWParams"];
    r := UpdateListLoop(pd1, "mapFilters", f => SetParams(f, map["GNFWParams" := gnfw]));
  }

  /**
   * Renamed and removed parameters: `makeTileDir` moves to `useTiling`,
   * `tileDefLabel` is dropped.
   */
  function RenameLegacy(pd: Fields): (r: Fields)
    ensures "makeTileDir" !in r && "tileDefLabel" !in r
    ensures "makeTileDir" in pd ==> "useTiling" in r && r["useTiling"] == pd["makeTileDir"]
    ensures "makeTileDir" !in pd && "useTiling" in pd ==> "useTiling" in r && r["useTiling"] == pd["useTiling"]
    ensures forall k :: k in pd && k != "makeTileDir" && k != "tileDefLabel" && k != "useTiling" ==>
      k in r && r[k] == pd[k]
    ensures forall k :: k in r ==> k in pd || k == "useTiling"
  {
    var moved := if "makeTileDir" in pd then (pd["useTiling" := pd["makeTileDir"]] - {"makeTileDir"}) else pd;
    moved - {"tileDefLabel"}
  }

  /** The rewriting of the map and filter lists, up to the upper-casing of tile names. */
  function MapsAndFilters(pd: Fields): (r: Result<Fields, ConfigError>)
    ensures r.Ok? ==> r.value.Keys == pd.Keys + {"photFilter"}
  {
    var pd1 :- UpdateList(pd, "unfilteredMaps", MaskStep(pd));
    var pd2 :- MergeStep(pd1);
    var pd3 :- PhotFilterStep(pd2);
    var pd4 :- NoiseMaskStep(pd3);
    UpperCaseStep(pd4)
  }

  method RewriteMapsAndFilters(pd: Fields) returns (r: Result<Fields, ConfigError>)
    ensures r == MapsAndFilters(pd)
  {
    var pd1 :- UpdateListLoop(pd, "unfilteredMaps", MaskStep(pd));
    var pd2 :- MergeAllFilters(pd1);
    var pd3 :- ApplyPhotFilter(pd2);
    var pd4 :- ApplyNoiseMask(pd3);
    r := ApplyUpperCase(pd4);
  }

  /** The defaults, the duplicate check and the GNFW parameters. */
  function DefaultsAndChecks(pd: Fields): (r: Result<Fields, ConfigError>)
    ensures r.Ok? ==> pd.Keys <= r.value.Keys && "useTiling" in r.value && "GNFWParams" in r.value
    ensures r.Ok? ==> forall i :: 0 <= i < |DefaultsBeforeTiling| ==> DefaultsBeforeTiling[i].0 in r.value
    ensures r.Ok? ==> forall i :: 0 <= i < |DefaultsAfterGNFW| ==> DefaultsAfterGNFW[i].0 in r.value
  {
    var d := Defaults(pd, DefaultsBeforeTiling);
    var pd6 :- SelFnMethodStep(d);
    var pd7 := Default(pd6, "useTiling", Bool(false));
    var pd8 :- DuplicateStep(pd7);
    var pd9 :- GNFWStep(pd8);
    assert d.Keys <= pd9.Keys;
    var r := Defaults(pd9, DefaultsAfterGNFW);
    assert forall i :: 0 <= i < |DefaultsBeforeTiling| ==> DefaultsBeforeTiling[i].0 in d;
    assert pd9.Keys <= r.Keys;
    Ok(r)
  }

  method ApplyDefaultsAndChecks(pd: Fields) returns (r: Result<Fields, ConfigError>)
    ensures r == DefaultsAndChecks(pd)
  {
    var pd6 :- SelFnMethodStep(Defaults(pd, DefaultsBeforeTiling));
    var pd7 := Default(pd6, "useTiling", Bool(false));
    if "tileDefinitions" in pd7 && pd7["tileDefinitions"].List? {
      var bad := CheckTileNames(pd7["tileDefinitions"].items);
      if bad.Some? {
        return Err(bad.value);
      }
    }
    var pd9 :- ApplyGNFW(pd7);
    r := Ok(Defaults(pd9, DefaultsAfterGNFW));
  }

  /** Everything `parseConfigFile` does to the loaded dictionary, in the order it does it. */
  function ParsedConfig(pd: Fields, ctime: real): Result<Fields, ConfigError>
  {
    var pd5 :- MapsAndFilters(pd);
    var pd10 :- DefaultsAndChecks(pd5);
    Ok(RenameLegacy(pd10["_file_last_modified_ctime" := Real(ctime)]))
  }

  /**
   * `parseConfigFile` after `yaml.safe_load`: the loaded top-level dictionary
   * and the file's change time are inputs.
   */
  method ParseConfigFile(pd: Fields, ctime: real) returns (r: Result<Fields, ConfigError>)
    ensures r == ParsedConfig(pd, ctime)
  {
    var pd5 :- RewriteMapsAndFilters(pd);
    var pd10 :- ApplyDefaultsAndChecks(pd5);
    r := Ok(RenameLegacy(pd10["_file_last_modified_ctime" := Real(ctime)]));
  }

  /** Tile definitions `i` and `j` are dicts whose tile names are strings equal up to case. */
  ghost predicate NamesEqualUpToCase(defs: seq<Value>, i: nat, j: nat)
  {
    i < j < |defs| && defs[i].Dict? && defs[j].Dict? &&
    "tileName" in defs[i].fields && defs[i].fields["tileName"].Str? &&
    "tileName" in defs[j].fields && defs[j].fields["tileName"].Str? &&
    Upper(defs[i].fields["tileName"].s) == Upper(defs[j].fields["tileName"].s)
  }

  /** The steps before the upper-casing leave `tileDefinitions` as it was. */
  lemma {:induction false} TilesReachUpperCase(pd: Fields) returns (pd4: Fields)
    requires MapsAndFilters(pd).Ok? && "tileDefinitions" in pd
    ensures "tileDefinitions" in pd4 && pd4["tileDefinitions"] == pd["tileDefinitions"]
    ensures MapsAndFilters(pd) == UpperCaseStep(pd4)
  {
    var pd1 := UpdateList(pd, "unfilteredMaps", MaskStep(pd)).value;
    var pd2 := MergeStep(pd1).value;
    var pd3 := PhotFilterStep(pd2).value;
    pd4 := NoiseMaskStep(pd3).value;
  }

  /** Upper-casing makes names equal up to case equal outright. */
  lemma {:induction false} UpperCaseClash(pd: Fields, i: nat, j: nat)
    requires "tileDefinitions" in pd && pd["tileDefinitions"].List?
    requires NamesEqualUpToCase(pd["tileDefinitions"].items, i, j)
    requires UpperCaseStep(pd).Ok?
    ensures var pd5 := UpperCaseStep(pd).value;
      "tileDefinitions" in pd5 && pd5["tileDefinitions"].List? &&
      var up := pd5["tileDefinitions"].items;
      i < j < |up| && up[i].Dict? && up[j].Dict? &&
      "tileName" in up[i].fields && "tileName" in up[j].fields &&
      up[i].fields["tileName"] == up[j].fields["tileName"]
  {
    var defs := pd["tileDefinitions"].items;
    var up := UpperCaseStep(pd).value["tileDefinitions"].items;
    assert up[i] == UpperTileName(defs[i].fields).value;
    assert up[j] == UpperTileName(defs[j].fields).value;
  }

  /** Equal tile names make the defaults-and-checks phase fail. */
  lemma {:induction false} ClashFailsChecks(pd5: Fields, i: nat, j: nat)
    requires "tileDefinitions" in pd5 && pd5["tileDefinitions"].List?
    requires var up := pd5["tileDefinitions"].items;
      i < j < |up| && up[i].Dict? && up[j].Dict? &&
      "tileName" in up[i].fields && "tileName" in up[j].fields &&
      up[i].fields["tileName"] == up[j].fields["tileName"]
    ensures DefaultsAndChecks(pd5).Err?
  {
    var s6 := SelFnMethodStep(Defaults(pd5, DefaultsBeforeTiling));
    if s6.Ok? {
      var pd7 := Default(s6.value, "useTiling", Bool(false));
      assert pd7["tileDefinitions"] == pd5["tileDefinitions"];
      CaseInsensitiveDuplicate(pd7, i, j);
    }
  }

  /**
   * Two tile definitions whose names differ only in the case of their letters
   * make the parse fail: the names are upper-cased before the duplicate check.
   */
  lemma {:induction false} CaseInsensitiveParseFails(pd: Fields, ctime: real, i: nat, j: nat)
    requires "tileDefinitions" in pd && pd["tileDefinitions"].List?
    requires NamesEqualUpToCase(pd["tileDefinitions"].items, i, j)
    ensures ParsedConfig(pd, ctime).Err?
  {
    if MapsAndFilters(pd).Ok? {
      var pd4 := TilesReachUpperCase(pd);
      UpperCaseClash(pd4, i, j);
      ClashFailsChecks(MapsAndFilters(pd).value, i, j);
    }
  }

  /** Both phases succeed exactly when the whole parse does. */
  lemma {:induction false} ParsedConfigPhases(pd: Fields, ctime: real)
    requires ParsedConfig(pd, ctime).Ok?
    ensures MapsAndFilters(pd).Ok? && DefaultsAndChecks(MapsAndFilters(pd).value).Ok?
    ensures ParsedConfig(pd, ctime).value ==
      RenameLegacy(DefaultsAndChecks(MapsAndFilters(pd).value).value["_file_last_modified_ctime" := Real(ctime)])
  {
  }

  /** The keys the last two rewrites leave in place. */
  lemma {:induction false} FinalKeys(pd10: Fields, ctime: real)
    requires "photFilter" in pd10 && "useTiling" in pd10 && "GNFWParams" in pd10
    requires forall i :: 0 <= i < |DefaultsBeforeTiling| ==> DefaultsBeforeTiling[i].0 in pd10
    requires forall i :: 0 <= i < |DefaultsAfterGNFW| ==> DefaultsAfterGNFW[i].0 in pd10
    ensures var r := RenameLegacy(pd10["_file_last_modified_ctime" := Real(ctime)]);
      (forall i :: 0 <= i < |DefaultsBeforeTiling| ==> DefaultsBeforeTiling[i].0 in r) &&
      (forall i :: 0 <= i < |DefaultsAfterGNFW| ==> DefaultsAfterGNFW[i].0 in r) &&
      "photFilter" in r && "useTiling" in r && "GNFWParams" in r &&
      "makeTileDir" !in r && "tileDefLabel" !in r &&
      "_file_last_modified_ctime" in r && r["_file_last_modified_ctime"] == Real(ctime)
  {
    var pd11 := pd10["_file_last_modified_ctime" := Real(ctime)];
    forall i | 0 <= i < |DefaultsBeforeTiling|
      ensures DefaultsBeforeTiling[i].0 in pd11 && DefaultsBeforeTiling[i].0 != "makeTileDir" &&
        DefaultsBeforeTiling[i].0 != "tileDefLabel"
    {
    }
    forall i | 0 <= i < |DefaultsAfterGNFW|
      ensures DefaultsAfterGNFW[i].0 in pd11 && DefaultsAfterGNFW[i].0 != "makeTileDir" &&
        DefaultsAfterGNFW[i].0 != "tileDefLabel"
    {
    }
  }

  /**
   * A parsed configuration has every default key, a `photFilter`, the file's
   * change time, and no legacy keys.
   */
  lemma {:induction false} ParsedConfigKeys(pd: Fields, ctime: real)
    requires ParsedConfig(pd, ctime).Ok?
    ensures var r := ParsedConfig(pd, ctime).value;
      (forall i :: 0 <= i < |DefaultsBeforeTiling| ==> DefaultsBeforeTiling[i].0 in r) &&
      (forall i :: 0 <= i < |DefaultsAfterGNFW| ==> DefaultsAfterGNFW[i].0 in r) &&
      "photFilter" in r && "useTiling" in r && "GNFWParams" in r &&
      "makeTileDir" !in r && "tileDefLabel" !in r &&
      "_file_last_modified_ctime" in r && r["_file_last_modified_ctime"] == Real(ctime)
  {
    ParsedConfigPhases(pd, ctime);
    var pd5 := MapsAndFilters(pd).value;
    FinalKeys(DefaultsAndChecks(pd5).value, ctime);
  }

  // ------------------------------------------------------- tile selection

  /** `tileNames` restricted to the members of `tileNameList`, in `tileNames` order. */
  function SelectTiles(tileNames: seq<string>, wanted: seq<Value>): (r: seq<string>)
    ensures |r| <= |tileNames|
    ensures forall x :: x in r ==> x in tileNames && Str(x) in wanted
    decreases |tileNames|
  {
    if |tileNames| == 0 then []
    else
      var last := tileNames[|tileNames| - 1];
      var prev := SelectTiles(tileNames[..|tileNames| - 1], wanted);
      if Str(last) in wanted then prev + [last] else prev
  }

  /** No listed tile is dropped. */
  lemma {:induction false} SelectTilesComplete(tileNames: seq<string>, wanted: seq<Value>)
    ensures forall x :: x in tileNames && Str(x) in wanted ==> x in SelectTiles(tileNames, wanted)
    decreases |tileNames|
  {
    if |tileNames| > 0 {
      var prefix := tileNames[..|tileNames| - 1];
      SelectTilesComplete(prefix, wanted);
      forall x | x in tileNames && Str(x) in wanted ensures x in SelectTiles(tileNames, wanted) {
        if x != tileNames[|tileNames| - 1] {
          var i :| 0 <= i < |tileNames| && tileNames[i] == x;
          assert prefix[i] == x;
        }
      }
    }
  }

  /** When every tile is listed, the order and contents are unchanged. */
  lemma {:induction false} SelectTilesAll(tileNames: seq<string>, wanted: seq<Value>)
    requires forall i :: 0 <= i < |tileNames| ==> Str(tileNames[i]) in wanted
    ensures SelectTiles(tileNames, wanted) == tileNames
    decreases |tileNames|
  {
    if |tileNames| > 0 {
      SelectTilesAll(tileNames[..|tileNames| - 1], wanted);
      assert tileNames[..|tileNames| - 1] + [tileNames[|tileNames| - 1]] == tileNames;
    }
  }

  /** The loop over `self.tileNames` keeping the names in `tileNameList`. */
  method FilterTileNames(tileNames: seq<string>, wanted: seq<Value>) returns (r: Result<seq<string>, ConfigError>)
    ensures r.Ok? <==> SelectTiles(tileNames, wanted) != []
    ensures r.Ok? ==> r.value == SelectTiles(tileNames, wanted)
    ensures r.Err? ==> r.error == NoMatchingTiles
  {
    var newList: seq<string> := [];
    var i := 0;
    while i < |tileNames|
      invariant 0 <= i <= |tileNames|
      invariant newList == SelectTiles(tileNames[..i], wanted)
    {
      assert tileNames[..i + 1][..i] == tileNames[..i];
      if Str(tileNames[i]) in wanted {
        newList := newList + [tileNames[i]];
      }
      i := i + 1;
    }
    assert tileNames[..i] == tileNames;
    if newList == [] {
      return Err(NoMatchingTiles);
    }
    return Ok(newList);
  }

  // -------------------------------------------------- round-robin division

  lemma {:induction false} MulAtLeast(d: int, size: int)
    requires d >= 1 && size > 0
    ensures d * size >= size
  {
    assert d * size == (d - 1) * size + size;
    assert (d - 1) * size >= 0;
  }

  /** Euclid: a quotient and remainder in range are the ones `%` gives. */
  lemma {:induction false} ModUnique(a: nat, size: nat, q: int, r: int)
    requires size > 0 && 0 <= r < size && a == q * size + r
    ensures a % size == r
  {
    var q', r' := a / size, a % size;
    assert a == q' * size + r';
    assert (q - q') * size == r' - r;
    if q > q' {
      MulAtLeast(q - q', size);
    } else if q < q' {
      MulAtLeast(q' - q, size);
    }
  }

  /** `rankCounter` advances by one and wraps to 0 after `size - 1`: it is the position mod `size`. */
  lemma {:induction false} ModStep(k: nat, size: nat)
    requires size > 0
    ensures (k + 1) % size == if k % size + 1 == size then 0 else k % size + 1
  {
    var q, r := k / size, k % size;
    assert k == q * size + r;
    if r + 1 == size {
      assert k + 1 == (q + 1) * size + 0;
      ModUnique(k + 1, size, q + 1, 0);
    } else {
      ModUnique(k + 1, size, q, r + 1);
    }
  }

  lemma {:induction false} ModAtMost(k: nat, size: nat)
    requires size > 0
    ensures k % size <= k
    ensures k < size ==> k % size == k
  {
    if k < size {
      ModUnique(k, size, 0, k);
    }
  }

  /** The positions `k < n` the round-robin gives to rank `r`, in increasing order. */
  function RankPositions(n: nat, size: nat, r: nat): (p: seq<nat>)
    requires size > 0
    ensures forall i :: 0 <= i < |p| ==> p[i] < n && p[i] % size == r
    ensures forall i, j :: 0 <= i < j < |p| ==> p[i] < p[j]
  {
    if n == 0 then [] else RankPositions(n - 1, size, r) + (if (n - 1) % size == r then [n - 1] else [])
  }

  /** Every position goes to exactly one rank, `k mod size`. */
  lemma {:induction false} RankPositionsPartition(n: nat, size: nat, k: nat, r: nat)
    requires size > 0 && k < n
    ensures k in RankPositions(n, size, r) <==> r == k % size
    decreases n
  {
    if k < n - 1 {
      RankPositionsPartition(n - 1, size, k, r);
    } else if k !in RankPositions(n - 1, size, r) {
      assert RankPositions(n, size, r) == RankPositions(n - 1, size, r) + (if k % size == r then [k] else []);
    }
  }

  /** The tiles of rank `r`: every `size`-th tile starting at position `r`. */
  function RankTiles(tiles: seq<string>, size: nat, r: nat): (names: seq<string>)
    requires size > 0
    ensures |names| == |RankPositions(|tiles|, size, r)|
  {
    var p := RankPositions(|tiles|, size, r);
    seq(|p|, i requires 0 <= i < |p| => tiles[p[i]])
  }

  lemma {:induction false} RankTilesStep(tiles: seq<string>, k: nat, size: nat, r: nat)
    requires size > 0 && k < |tiles|
    ensures RankTiles(tiles[..k + 1], size, r) ==
      RankTiles(tiles[..k], size, r) + (if k % size == r then [tiles[k]] else [])
  {
    var a, b := RankTiles(tiles[..k + 1], size, r), RankTiles(tiles[..k], size, r);
    var pa, pb := RankPositions(k + 1, size, r), RankPositions(k, size, r);
    assert pa == pb + (if k % size == r then [k] else []);
    forall i | 0 <= i < |pb| ensures a[i] == b[i] {
      assert a[i] == tiles[..k + 1][pb[i]] && b[i] == tiles[..k][pb[i]];
    }
  }

  /** A rank at or beyond the number of tiles gets none. */
  lemma {:induction false} RankTilesEmpty(tiles: seq<string>, size: nat, r: nat)
    requires size > 0 && r >= |tiles|
    ensures RankTiles(tiles, size, r) == []
  {
    var p := RankPositions(|tiles|, size, r);
    if |p| > 0 {
      ModAtMost(p[0], size);
    }
  }

  /** The round-robin loop of `NemoConfig.__init__`. */
  method RoundRobin(tileNames: seq<string>, size: nat) returns (rankExtNames: map<nat, seq<string>>)
    requires size > 0
    ensures forall r: nat :: r in rankExtNames <==> r < size && r < |tileNames|
    ensures forall r :: r in rankExtNames ==> rankExtNames[r] == RankTiles(tileNames, size, r)
  {
    rankExtNames := map[];
    var rankCounter: nat := 0;
    var k := 0;
    while k < |tileNames|
      invariant k <= |tileNames|
      invariant rankCounter == k % size
      invariant forall r: nat :: r in rankExtNames <==> r < size && r < k
      invariant forall r :: r in rankExtNames ==> rankExtNames[r] == RankTiles(tileNames[..k], size, r)
    {
      var e := tileNames[k];
      ModAtMost(k, size);
      if rankCounter !in rankExtNames {
        RankTilesEmpty(tileNames[..k], size, rankCounter);
        rankExtNames := rankExtNames[rankCounter := []];
      }
      rankExtNames := rankExtNames[rankCounter := rankExtNames[rankCounter] + [e]];
      forall r | r in rankExtNames ensures rankExtNames[r] == RankTiles(tileNames[..k + 1], size, r) {
        RankTilesStep(tileNames, k, size, r);
      }
      ModStep(k, size);
      rankCounter := rankCounter + 1;
      if rankCounter > size - 1 {
        rankCounter := 0;
      }
      k := k + 1;
    }
    assert tileNames[..k] == tileNames;
  }

  /** The tiles rank `rank` keeps: its entry in `rankExtNames`, or none. */
  lemma {:induction false} RankShare(tileNames: seq<string>, size: nat, rank: nat, rankExtNames: map<nat, seq<string>>)
    requires size > 0 && rank < size
    requires forall r: nat :: r in rankExtNames <==> r < size && r < |tileNames|
    requires forall r :: r in rankExtNames ==> rankExtNames[r] == RankTiles(tileNames, size, r)
    ensures (if rank in rankExtNames then rankExtNames[rank] else []) == RankTiles(tileNames, size, rank)
  {
    if rank !in rankExtNames {
      RankTilesEmpty(tileNames, size, rank);
    }
  }

  // ------------------------------------------------------------ filter sets

  /** Distinct values in first-seen order: the `if f not in self.filterSets` appends. */
  function Distinct(s: seq<int>): (d: seq<int>)
    ensures forall x :: x in d <==> x in s
    ensures forall i, j :: 0 <= i < j < |d| ==> d[i] != d[j]
  {
    if |s| == 0 then []
    else
      var prev := Distinct(s[..|s| - 1]);
      assert forall x :: x in s <==> x in s[..|s| - 1] || x == s[|s| - 1];
      if s[|s| - 1] in prev then prev else prev + [s[|s| - 1]]
  }

  function Insert(x: int, s: seq<int>): (r: seq<int>)
    ensures |r| == |s| + 1
    ensures forall y :: y in r <==> y == x || y in s
    ensures (forall i, j :: 0 <= i < j < |s| ==> s[i] < s[j]) && x !in s ==>
      forall i, j :: 0 <= i < j < |r| ==> r[i] < r[j]
  {
    if |s| == 0 || x <= s[0] then [x] + s
    else
      var rest := Insert(x, s[1..]);
      assert forall y :: y in s <==> y == s[0] || y in s[1..];
      InsertAbove(x, s, rest);
      [s[0]] + rest
  }

  lemma {:induction false} InsertAbove(x: int, s: seq<int>, rest: seq<int>)
    requires |s| > 0 && x > s[0]
    requires forall y :: y in rest ==> y == x || y in s[1..]
    ensures (forall i, j :: 0 <= i < j < |s| ==> s[i] < s[j]) ==> forall i :: 0 <= i < |rest| ==> s[0] < rest[i]
  {
    if forall i, j :: 0 <= i < j < |s| ==> s[i] < s[j] {
      forall i | 0 <= i < |rest| ensures s[0] < rest[i] {
        assert rest[i] in rest;
        if rest[i] != x {
          var k :| 0 <= k < |s[1..]| && s[1..][k] == rest[i];
          assert s[k + 1] == rest[i];
        }
      }
    }
  }

  /** `list.sort()` on distinct integers. */
  function Sort(s: seq<int>): (r: seq<int>)
    ensures |r| == |s|
    ensures forall y :: y in r <==> y in s
    ensures (forall i, j :: 0 <= i < j < |s| ==> s[i] != s[j]) ==> forall i, j :: 0 <= i < j < |r| ==> r[i] < r[j]
  {
    if |s| == 0 then []
    else
      assert forall y :: y in s <==> y == s[0] || y in s[1..];
      Insert(s[0], Sort(s[1..]))
  }

  /** The set numbers one filter lists: none without `filterSets`, an error when malformed. */
  function FilterNumbers(f: Value): Result<seq<int>, ConfigError>
  {
    if !f.Dict? then Err(Malformed("mapFilters"))
    else if "filterSets" !in f.fields then Ok([])
    else
      var sets := f.fields["filterSets"];
      if !sets.List? || !(forall i :: 0 <= i < |sets.items| ==> sets.items[i].Int?) then Err(Malformed("filterSets"))
      else Ok(seq(|sets.items|, i requires 0 <= i < |sets.items| => sets.items[i].i))
  }

  /** The set numbers listed by the filters that have `filterSets`, filter by filter. */
  function SetNumbers(filters: seq<Value>): Result<seq<int>, ConfigError>
    decreases |filters|
  {
    if |filters| == 0 then Ok([])
    else
      var prev :- SetNumbers(filters[..|filters| - 1]);
      var nums :- FilterNumbers(filters[|filters| - 1]);
      Ok(prev + nums)
  }

  /** `filterSetLabels`: each option's `label`, or None. */
  function SetLabels(options: map<int, Value>): Result<map<int, Value>, ConfigError>
  {
    if exists n :: n in options && !options[n].Dict? then Err(Malformed("filterSetOptions"))
    else Ok(map n | n in options :: Get(options[n].fields, "label"))
  }

  datatype FilterSetInfo = FilterSetInfo(sets: seq<int>, options: Option<map<int, Value>>, labels: map<int, Value>)

  /** `_identifyFilterSets`. */
  function FilterSetsOf(pd: Fields): Result<FilterSetInfo, ConfigError>
  {
    if "filterSetOptions" !in pd then Ok(FilterSetInfo([], None, map[]))
    else if "mapFilters" !in pd then Err(MissingKey("mapFilters"))
    else if !pd["mapFilters"].List? then Err(Malformed("mapFilters"))
    else
      var nums :- SetNumbers(pd["mapFilters"].items);
      if !pd["filterSetOptions"].NumDict? then Err(Malformed("filterSetOptions"))
      else
        var labels :- SetLabels(pd["filterSetOptions"].byNum);
        Ok(FilterSetInfo(Sort(Distinct(nums)), Some(pd["filterSetOptions"].byNum), labels))
  }

  /**
   * `filterSets` is sorted, holds no number twice, and holds exactly the
   * numbers some filter lists.
   */
  lemma {:induction false} FilterSetsSorted(pd: Fields)
    requires FilterSetsOf(pd).Ok? && "filterSetOptions" in pd
    ensures var s := FilterSetsOf(pd).value.sets;
      (forall i, j :: 0 <= i < j < |s| ==> s[i] < s[j]) &&
      forall x :: x in s <==> x in SetNumbers(pd["mapFilters"].items).value
  {
  }

  /** The loops of `_identifyFilterSets` over the filters and their set numbers. */
  method CollectSetNumbers(filters: seq<Value>) returns (r: Result<seq<int>, ConfigError>)
    ensures r.Ok? <==> SetNumbers(filters).Ok?
    ensures r.Ok? ==> r.value == Distinct(SetNumbers(filters).value)
  {
    var filterSets: seq<int> := [];
    ghost var all: seq<int> := [];
    var i := 0;
    while i < |filters|
      invariant 0 <= i <= |filters|
      invariant SetNumbers(filters[..i]) == Ok(all)
      invariant filterSets == Distinct(all)
    {
      SetNumbersStep(filters, i, all);
      if !filters[i].Dict? {
        SetNumbersErrExtends(filters, i + 1);
        return Err(Malformed("mapFilters"));
      }
      if "filterSets" in filters[i].fields {
        var sets := filters[i].fields["filterSets"];
        if !sets.List? || !(forall j :: 0 <= j < |sets.items| ==> sets.items[j].Int?) {
          SetNumbersErrExtends(filters, i + 1);
          return Err(Malformed("filterSets"));
        }
        ghost var nums := FilterNumbers(filters[i]).value;
        filterSets := AppendNewNumbers(filterSets, all, sets.items);
        all := all + nums;
      } else {
        assert all + [] == all;
      }
      i := i + 1;
    }
    assert filters[..i] == filters;
    return Ok(filterSets);
  }

  /** The inner loop of `_identifyFilterSets`: appends each listed number not yet seen. */
  method AppendNewNumbers(filterSets: seq<int>, ghost all: seq<int>, items: seq<Value>) returns (r: seq<int>)
    requires filterSets == Distinct(all)
    requires forall j :: 0 <= j < |items| ==> items[j].Int?
    ensures r == Distinct(all + seq(|items|, j requires 0 <= j < |items| => items[j].i))
  {
    ghost var nums := seq(|items|, j requires 0 <= j < |items| => items[j].i);
    r := filterSets;
    var j := 0;
    assert all + nums[..0] == all;
    while j < |items|
      invariant 0 <= j <= |items|
      invariant r == Distinct(all + nums[..j])
    {
      var f := items[j].i;
      assert f == nums[j];
      DistinctStep(all, nums, j, r);
      if f !in r {
        r := r + [f];
      }
      j := j + 1;
    }
    assert nums[..j] == nums;
  }

  /** One more listed number extends the distinct values seen so far when it is new. */
  lemma {:induction false} DistinctStep(all: seq<int>, nums: seq<int>, j: nat, r: seq<int>)
    requires j < |nums| && r == Distinct(all + nums[..j])
    ensures Distinct(all + nums[..j + 1]) == if nums[j] in r then r else r + [nums[j]]
  {
    assert all + nums[..j + 1] == (all + nums[..j]) + [nums[j]];
    DistinctSnoc(all + nums[..j], nums[j]);
  }

  /** One more filter adds its own set numbers, or its error. */
  lemma {:induction false} SetNumbersStep(filters: seq<Value>, i: nat, all: seq<int>)
    requires i < |filters| && SetNumbers(filters[..i]) == Ok(all)
    ensures SetNumbers(filters[..i + 1]) ==
      if FilterNumbers(filters[i]).Err? then Err(FilterNumbers(filters[i]).error)
      else Ok(all + FilterNumbers(filters[i]).value)
  {
    assert filters[..i + 1][..i] == filters[..i];
  }

  /** Appending a value to the input appends it to the distinct values when it is new. */
  lemma {:induction false} DistinctSnoc(s: seq<int>, x: int)
    ensures Distinct(s + [x]) == if x in Distinct(s) then Distinct(s) else Distinct(s) + [x]
  {
    assert (s + [x])[..|s|] == s;
  }

  lemma {:induction false} SetNumbersErrExtends(filters: seq<Value>, n: nat)
    requires n <= |filters| && SetNumbers(filters[..n]).Err?
    ensures SetNumbers(filters).Err?
    decreases |filters|
  {
    if n < |filters| {
      var shorter := filters[..|filters| - 1];
      assert shorter[..n] == filters[..n];
      SetNumbersErrExtends(shorter, n);
    } else {
      assert filters[..n] == filters;
    }
  }

  method IdentifyFilterSets(pd: Fields) returns (r: Result<FilterSetInfo, ConfigError>)
    ensures r == FilterSetsOf(pd)
  {
    if "filterSetOptions" !in pd {
      return Ok(FilterSetInfo([], None, map[]));
    }
    if "mapFilters" !in pd {
      return Err(MissingKey("mapFilters"));
    }
    if !pd["mapFilters"].List? {
      return Err(Malformed("mapFilters"));
    }
    var collected := CollectSetNumbers(pd["mapFilters"].items);
    if collected.Err? {
      return Err(SetNumbers(pd["mapFilters"].items).error);
    }
    var filterSets := Sort(collected.value);
    if !pd["filterSetOptions"].NumDict? {
      return Err(Malformed("filterSetOptions"));
    }
    var labels := SetLabels(pd["filterSetOptions"].byNum);
    if labels.Err? {
      return Err(labels.error);
    }
    return Ok(FilterSetInfo(filterSets, Some(pd["filterSetOptions"].byNum), labels.value));
  }

  // --------------------------------------------------------- setFilterSet

  const SetOptionDefaults: seq<(string, Value)> := [
    ("saveCatalog", Bool(false)), ("maskSubtractedRegions", Bool(false)), ("maskHoleDilationFactor", Null),
    ("addSiphonedFromSets", Null), ("ignoreSurveyMask", Bool(false))]

  const PermittedOverrides: seq<string> := ["thresholdSigma", "objIdent", "findCenterOfMass", "measureShapes"]

  const SaveKeys: seq<string> := ["saveFilteredMaps", "saveFilter", "saveRMSMap", "savePlots", "saveDS9Regions"]

  /** Defaults already present are left alone, so applying a run twice is applying it once. */
  lemma {:induction false} DefaultsPresent(pd: Fields, ds: seq<(string, Value)>)
    requires forall i :: 0 <= i < |ds| ==> ds[i].0 in pd
    ensures Defaults(pd, ds) == pd
    decreases |ds|
  {
    if |ds| > 0 {
      assert forall i :: 0 <= i < |ds| - 1 ==> ds[..|ds| - 1][i] == ds[i];
      DefaultsPresent(pd, ds[..|ds| - 1]);
    }
  }

  /** Only the four permitted keys of the options reach the top-level parameters. */
  function Overridden(pd: Fields, options: Fields): (r: Fields)
    ensures forall k :: k in PermittedOverrides && k in options ==> k in r && r[k] == options[k]
    ensures forall k :: k in pd && !(k in PermittedOverrides && k in options) ==> k in r && r[k] == pd[k]
    ensures forall k :: k in r ==> k in pd || k in PermittedOverrides
  {
    pd + map k | k in PermittedOverrides && k in options :: options[k]
  }

  /** `[self.filterSetOptions[i]['catalog'] for i in options['noiseModelCatalogFromSets']]`. */
  function Catalogs(fso: map<int, Value>, sets: seq<Value>): (r: Result<seq<Value>, ConfigError>)
    ensures r.Ok? ==> |r.value| == |sets|
    decreases |sets|
  {
    if |sets| == 0 then Ok([])
    else
      var prev :- Catalogs(fso, sets[..|sets| - 1]);
      var c :- CatalogOf(fso, sets[|sets| - 1]);
      Ok(prev + [c])
  }

  function CatalogOf(fso: map<int, Value>, idx: Value): Result<Value, ConfigError>
  {
    if !idx.Int? || idx.i !in fso then Err(UnknownFilterSet)
    else if !fso[idx.i].Dict? then Err(Malformed("filterSetOptions"))
    else if "catalog" !in fso[idx.i].fields then Err(MissingKey("catalog"))
    else Ok(fso[idx.i].fields["catalog"])
  }

  method CollectCatalogs(fso: map<int, Value>, sets: seq<Value>) returns (r: Result<seq<Value>, ConfigError>)
    ensures r == Catalogs(fso, sets)
  {
    var cats: seq<Value> := [];
    var i := 0;
    while i < |sets|
      invariant 0 <= i <= |sets|
      invariant Catalogs(fso, sets[..i]) == Ok(cats)
    {
      assert sets[..i + 1][..i] == sets[..i];
      var c := CatalogOf(fso, sets[i]);
      if c.Err? {
        CatalogsErrExtends(fso, sets, i + 1);
        return Err(c.error);
      }
      cats := cats + [c.value];
      i := i + 1;
    }
    assert sets[..i] == sets;
    return Ok(cats);
  }

  lemma {:induction false} CatalogsErrExtends(fso: map<int, Value>, sets: seq<Value>, n: nat)
    requires n <= |sets| && Catalogs(fso, sets[..n]).Err?
    ensures Catalogs(fso, sets) == Catalogs(fso, sets[..n])
    decreases |sets|
  {
    if n < |sets| {
      var shorter := sets[..|sets| - 1];
      assert shorter[..n] == sets[..n];
      CatalogsErrExtends(fso, shorter, n);
    } else {
      assert sets[..n] == sets;
    }
  }

  /** Every save switch already present is turned off; nothing else changes. */
  function SavesOff(params: Fields): (r: Fields)
    ensures r.Keys == params.Keys
    ensures forall k :: k in r ==> r[k] == (if k in SaveKeys then Bool(false) else params[k])
  {
    map k | k in params :: if k in SaveKeys then Bool(false) else params[k]
  }

  /** Whether `setNum` is not the last filter set; `filterSets[-1]` raises on an empty list. */
  function NotLastSet(filterSets: seq<int>, setNum: int): Result<bool, ConfigError>
  {
    if |filterSets| == 0 then Err(NoFilterSets) else Ok(setNum != filterSets[|filterSets| - 1])
  }

  /** The rewriting of one filter that `setNum` activates. */
  function ActivateFilter(f: Fields, setNum: int, options: Option<Fields>, fso: map<int, Value>, filterSets: seq<int>)
    : (r: Result<Value, ConfigError>)
    ensures r.Ok? ==>
      r.value.Dict? && r.value.fields.Keys == f.Keys &&
      (forall k :: k in f && k != "params" ==> r.value.fields[k] == f[k])
    ensures r.Ok? && options.Some? && "mapToUse" in options.value ==>
      "params" in r.value.fields && r.value.fields["params"].Dict? &&
      "mapToUse" in r.value.fields["params"].fields &&
      r.value.fields["params"].fields["mapToUse"] == options.value["mapToUse"]
    ensures r.Ok? && NotLastSet(filterSets, setNum) == Ok(true) ==>
      "params" in r.value.fields && r.value.fields["params"].Dict? &&
      forall k :: k in SaveKeys && k in r.value.fields["params"].fields ==> r.value.fields["params"].fields[k] == Bool(false)
    ensures r.Ok? && NotLastSet(filterSets, setNum) == Ok(false) && options.None? ==> r.value == Dict(f)
  {
    var mapToUse := options.Some? && "mapToUse" in options.value;
    var noiseModel := options.Some? && "noiseModelCatalogFromSets" in options.value;
    var paramsOk := "params" in f && f["params"].Dict?;
    if (mapToUse || noiseModel) && !paramsOk then
      Err(if "params" !in f then MissingKey("params") else Malformed("params"))
    else
      var cats :- if !noiseModel then Ok([])
        else if !options.value["noiseModelCatalogFromSets"].List? then Err(Malformed("noiseModelCatalogFromSets"))
        else Catalogs(fso, options.value["noiseModelCatalogFromSets"].items);
      var notLast :- NotLastSet(filterSets, setNum);
      if notLast && !paramsOk then Err(if "params" !in f then MissingKey("params") else Malformed("params"))
      else if !(mapToUse || noiseModel || notLast) then Ok(Dict(f))
      else
        var p1 := if mapToUse then f["params"].fields["mapToUse" := options.value["mapToUse"]] else f["params"].fields;
        var p2 := if noiseModel then p1["noiseModelCatalog" := List(cats)] else p1;
        var p3 := if notLast then SavesOff(p2) else p2;
        Ok(Dict(f["params" := Dict(p3)]))
  }

  predicate ActiveIn(f: Value, setNum: int)
  {
    f.Dict? && "filterSets" in f.fields && f.fields["filterSets"].List? && Int(setNum) in f.fields["filterSets"].items
  }

  /** The loop over `parDict['mapFilters']` keeping (and rewriting) the filters of set `setNum`, in order. */
  function Activated(filters: seq<Value>, setNum: int, options: Option<Fields>, fso: map<int, Value>,
                     filterSets: seq<int>): Result<seq<Value>, ConfigError>
    decreases |filters|
  {
    if |filters| == 0 then Ok([])
    else
      var prev :- Activated(filters[..|filters| - 1], setNum, options, fso, filterSets);
      var f := filters[|filters| - 1];
      if !f.Dict? then Err(Malformed("mapFilters"))
      else if "filterSets" !in f.fields then Err(MissingKey("filterSets"))
      else if !f.fields["filterSets"].List? then Err(Malformed("filterSets"))
      else if Int(setNum) !in f.fields["filterSets"].items then Ok(prev)
      else
        var g :- ActivateFilter(f.fields, setNum, options, fso, filterSets);
        Ok(prev + [g])
  }

  /** The indices of the filters set `setNum` activates. */
  function ActiveIndices(filters: seq<Value>, setNum: int): (ix: seq<nat>)
    ensures forall i :: 0 <= i < |ix| ==> ix[i] < |filters| && ActiveIn(filters[ix[i]], setNum)
    ensures forall i, j :: 0 <= i < j < |ix| ==> ix[i] < ix[j]
    decreases |filters|
  {
    if |filters| == 0 then []
    else
      var prev := ActiveIndices(filters[..|filters| - 1], setNum);
      if ActiveIn(filters[|filters| - 1], setNum) then prev + [|filters| - 1] else prev
  }

  /**
   * Exactly the filters whose `filterSets` contain `setNum` are kept, in their
   * original order, each with only its parameters rewritten; for any set but
   * the last, every save switch they carry is off.
   */
  lemma {:induction false} ActivatedFilters(filters: seq<Value>, setNum: int, options: Option<Fields>,
                                           fso: map<int, Value>, filterSets: seq<int>)
    requires Activated(filters, setNum, options, fso, filterSets).Ok?
    ensures var acts := Activated(filters, setNum, options, fso, filterSets).value;
      var ix := ActiveIndices(filters, setNum);
      |acts| == |ix| &&
      forall i :: 0 <= i < |acts| ==>
        acts[i].Dict? && acts[i].fields.Keys == filters[ix[i]].fields.Keys &&
        (forall k :: k in acts[i].fields && k != "params" ==> acts[i].fields[k] == filters[ix[i]].fields[k]) &&
        (NotLastSet(filterSets, setNum) == Ok(true) ==>
          "params" in acts[i].fields && acts[i].fields["params"].Dict? &&
          forall k :: k in SaveKeys && k in acts[i].fields["params"].fields ==> acts[i].fields["params"].fields[k] == Bool(false))
    decreases |filters|
  {
    if |filters| > 0 {
      var prefix := filters[..|filters| - 1];
      ActivatedFilters(prefix, setNum, options, fso, filterSets);
      assert ActiveIndices(prefix, setNum) == ActiveIndices(prefix, setNum);
      var ix := ActiveIndices(filters, setNum);
      var pix := ActiveIndices(prefix, setNum);
      forall i | 0 <= i < |pix| ensures prefix[pix[i]] == filters[ix[i]] {
        assert ix[i] == pix[i];
      }
    }
  }

  /** The loop form of `Activated`. */
  method ActivateFilters(filters: seq<Value>, setNum: int, options: Option<Fields>, fso: map<int, Value>,
                         filterSets: seq<int>) returns (r: Result<seq<Value>, ConfigError>)
    ensures r == Activated(filters, setNum, options, fso, filterSets)
  {
    var filtersToActivate: seq<Value> := [];
    var i := 0;
    while i < |filters|
      invariant 0 <= i <= |filters|
      invariant Activated(filters[..i], setNum, options, fso, filterSets) == Ok(filtersToActivate)
    {
      assert filters[..i + 1][..i] == filters[..i];
      var f := filters[i];
      if !f.Dict? || "filterSets" !in f.fields || !f.fields["filterSets"].List? {
        ActivatedErrExtends(filters, i + 1, setNum, options, fso, filterSets);
        return Activated(filters[..i + 1], setNum, options, fso, filterSets);
      }
      if Int(setNum) in f.fields["filterSets"].items {
        var g := ActivateFilter(f.fields, setNum, options, fso, filterSets);
        if g.Err? {
          ActivatedErrExtends(filters, i + 1, setNum, options, fso, filterSets);
          return Err(g.error);
        }
        filtersToActivate := filtersToActivate + [g.value];
      }
      i := i + 1;
    }
    assert filters[..i] == filters;
    return Ok(filtersToActivate);
  }

  lemma {:induction false} ActivatedErrExtends(filters: seq<Value>, n: nat, setNum: int, options: Option<Fields>,
                                              fso: map<int, Value>, filterSets: seq<int>)
    requires n <= |filters| && Activated(filters[..n], setNum, options, fso, filterSets).Err?
    ensures Activated(filters, setNum, options, fso, filterSets) == Activated(filters[..n], setNum, options, fso, filterSets)
    decreases |filters|
  {
    if n < |filters| {
      var shorter := filters[..|filters| - 1];
      assert shorter[..n] == filters[..n];
      ActivatedErrExtends(shorter, n, setNum, options, fso, filterSets);
    } else {
      assert filters[..n] == filters;
    }
  }

  /** The `subtractModelFromSets` loop for one map: the last matching set's catalogue is the one kept. */
  function SubtractModel(m: Fields, fso: map<int, Value>, sets: seq<Value>): Result<Fields, ConfigError>
    decreases |sets|
  {
    if |sets| == 0 then Ok(m)
    else
      var prev :- SubtractModel(m, fso, sets[..|sets| - 1]);
      var idx := sets[|sets| - 1];
      if !idx.Int? || idx.i !in fso then Err(UnknownFilterSet)
      else if !fso[idx.i].Dict? then Err(Malformed("filterSetOptions"))
      else
        var o := fso[idx.i].fields;
        if "label" in prev && "mapToUse" !in o then Err(MissingKey("mapToUse"))
        else if "label" in prev && prev["label"] != o["mapToUse"] then Ok(prev)
        else if "catalog" !in o then Err(MissingKey("catalog"))
        else Ok(prev["subtractModelFromCatalog" := o["catalog"]])
  }

  function SubtractStep(fso: map<int, Value>, sets: Value): Fields -> Result<Value, ConfigError>
  {
    m => if !sets.List? then Err(Malformed("subtractModelFromSets"))
         else var s :- SubtractModel(m, fso, sets.items); Ok(Dict(s))
  }

  /** The map-level keys every map takes from the options. */
  function MapOptions(m: Fields, options: Fields): (r: Fields)
    requires "maskSubtractedRegions" in options && "maskHoleDilationFactor" in options && "ignoreSurveyMask" in options
    ensures "maskSubtractedRegions" in r && r["maskSubtractedRegions"] == options["maskSubtractedRegions"]
    ensures "maskHoleDilationFactor" in r && r["maskHoleDilationFactor"] == options["maskHoleDilationFactor"]
    ensures PyTrue(options["ignoreSurveyMask"]) ==> "surveyMask" in r && r["surveyMask"] == Null
    ensures !PyTrue(options["ignoreSurveyMask"]) ==>
      ("surveyMask" in r <==> "surveyMask" in m) && ("surveyMask" in m ==> r["surveyMask"] == m["surveyMask"])
    ensures forall k :: k in m && k !in {"maskSubtractedRegions", "maskHoleDilationFactor", "surveyMask"} ==> k in r && r[k] == m[k]
  {
    var m1 := m["maskSubtractedRegions" := options["maskSubtractedRegions"]]
               ["maskHoleDilationFactor" := options["maskHoleDilationFactor"]];
    if PyTrue(options["ignoreSurveyMask"]) then m1["surveyMask" := Null] else m1
  }

  function MapOptionsStep(options: Fields): Fields -> Result<Value, ConfigError>
    requires "maskSubtractedRegions" in options && "maskHoleDilationFactor" in options && "ignoreSurveyMask" in options
  {
    m => Ok(Dict(MapOptions(m, options)))
  }

  datatype FilterSetState = FilterSetState(parDict: Fields, maps: seq<Value>, options: map<int, Value>)

  /** The options of set `setNum` with their defaults filled in, if the set has options. */
  function SetOptions(fso: map<int, Value>, setNum: int): Result<Option<Fields>, ConfigError>
  {
    if setNum !in fso then Ok(None)
    else if !fso[setNum].Dict? then Err(Malformed("filterSetOptions"))
    else Ok(Some(Defaults(fso[setNum].fields, SetOptionDefaults)))
  }

  lemma {:induction false} SetOptionsKeys(fso: map<int, Value>, setNum: int)
    requires SetOptions(fso, setNum).Ok? && SetOptions(fso, setNum).value.Some?
    ensures var o := SetOptions(fso, setNum).value.value;
      "maskSubtractedRegions" in o && "maskHoleDilationFactor" in o && "ignoreSurveyMask" in o
  {
    var o := SetOptions(fso, setNum).value.value;
    assert SetOptionDefaults[1].0 in o && SetOptionDefaults[2].0 in o && SetOptionDefaults[4].0 in o;
  }

  /**
   * `setFilterSet(setNum)` applied to the original configuration: the new
   * parameters, the new map list and the options table with the set's
   * defaults recorded in it.
   */
  function FilterSetResult(orig: Fields, origMaps: seq<Value>, fsOptions: Option<map<int, Value>>,
                           filterSets: seq<int>, setNum: int): Result<FilterSetState, ConfigError>
  {
    var a :- ActivationOf(orig, fsOptions, filterSets, setNum);
    var maps :- MapsOf(origMaps, a);
    Ok(FilterSetState(a.parDict, maps, a.fso))
  }

  /** The parameters, the set's options and the options table once the filters of a set are activated. */
  datatype Activation = Activation(parDict: Fields, options: Option<Fields>, fso: map<int, Value>)

  predicate HasMapOptions(a: Activation)
  {
    a.options.Some? ==>
      "maskSubtractedRegions" in a.options.value && "maskHoleDilationFactor" in a.options.value &&
      "ignoreSurveyMask" in a.options.value
  }

  /** The part of `setFilterSet` that rewrites the parameters. */
  function ActivationOf(orig: Fields, fsOptions: Option<map<int, Value>>, filterSets: seq<int>, setNum: int)
    : (r: Result<Activation, ConfigError>)
    ensures r.Ok? ==> HasMapOptions(r.value)
  {
    if fsOptions.None? then Err(Malformed("filterSetOptions"))
    else
      var fso := fsOptions.value;
      var options :- SetOptions(fso, setNum);
      SetOptionsPresent(fso, setNum, options);
      var newFso := if options.Some? then fso[setNum := Dict(options.value)] else fso;
      var pd1 := if options.Some? then Overridden(orig, options.value) else orig;
      if "mapFilters" !in pd1 then Err(MissingKey("mapFilters"))
      else if !pd1["mapFilters"].List? then Err(Malformed("mapFilters"))
      else
        var acts :- Activated(pd1["mapFilters"].items, setNum, options, newFso, filterSets);
        Ok(Activation(ActivatedParDict(pd1, acts, filterSets, setNum), options, newFso))
  }

  /** The activated filters replace `mapFilters`; forced photometry is off for all but the last set. */
  function ActivatedParDict(pd: Fields, acts: seq<Value>, filterSets: seq<int>, setNum: int): (r: Fields)
    ensures "mapFilters" in r && r["mapFilters"] == List(acts)
    ensures |acts| > 0 && NotLastSet(filterSets, setNum) == Ok(true) ==>
      "forcedPhotometryCatalog" in r && r["forcedPhotometryCatalog"] == Null
    ensures forall k :: k in pd && k != "mapFilters" && k != "forcedPhotometryCatalog" ==> k in r && r[k] == pd[k]
  {
    var pd2 := pd["mapFilters" := List(acts)];
    if |acts| > 0 && NotLastSet(filterSets, setNum) == Ok(true) then pd2["forcedPhotometryCatalog" := Null] else pd2
  }

  /** The part of `setFilterSet` that rewrites the map list. */
  function MapsOf(origMaps: seq<Value>, a: Activation): Result<seq<Value>, ConfigError>
    requires HasMapOptions(a)
  {
    var maps1 :- if a.options.Some? && "subtractModelFromSets" in a.options.value
      then UpdateAll(origMaps, "unfilteredMaps", SubtractStep(a.fso, a.options.value["subtractModelFromSets"]))
      else Ok(origMaps);
    if a.options.Some? then UpdateAll(maps1, "unfilteredMaps", MapOptionsStep(a.options.value)) else Ok(maps1)
  }

  lemma {:induction false} SetOptionsPresent(fso: map<int, Value>, setNum: int, options: Option<Fields>)
    requires SetOptions(fso, setNum) == Ok(options)
    ensures options.Some? ==>
      "maskSubtractedRegions" in options.value && "maskHoleDilationFactor" in options.value &&
      "ignoreSurveyMask" in options.value
  {
    if options.Some? {
      SetOptionsKeys(fso, setNum);
    }
  }

  /** Defaults once filled in stay put: a second call reads the same options. */
  lemma {:induction false} SetOptionsStable(fso: map<int, Value>, setNum: int)
    requires SetOptions(fso, setNum).Ok? && SetOptions(fso, setNum).value.Some?
    ensures var o := SetOptions(fso, setNum).value.value;
      SetOptions(fso[setNum := Dict(o)], setNum) == Ok(Some(o))
  {
    var o := SetOptions(fso, setNum).value.value;
    forall i | 0 <= i < |SetOptionDefaults| ensures SetOptionDefaults[i].0 in o {
    }
    DefaultsPresent(o, SetOptionDefaults);
  }

  /**
   * `setFilterSet` restores the original configuration first, so calling it
   * again with the same set, on the options table the first call left,
   * produces the same state: nothing accumulates.
   */
  lemma {:induction false} FilterSetRepeatable(orig: Fields, origMaps: seq<Value>, fso: map<int, Value>,
                                              filterSets: seq<int>, setNum: int)
    requires FilterSetResult(orig, origMaps, Some(fso), filterSets, setNum).Ok?
    ensures var s := FilterSetResult(orig, origMaps, Some(fso), filterSets, setNum).value;
      FilterSetResult(orig, origMaps, Some(s.options), filterSets, setNum) == Ok(s)
  {
    var a := ActivationOf(orig, Some(fso), filterSets, setNum).value;
    ActivationRepeatable(orig, fso, filterSets, setNum);
  }

  lemma {:induction false} ActivationRepeatable(orig: Fields, fso: map<int, Value>, filterSets: seq<int>, setNum: int)
    requires ActivationOf(orig, Some(fso), filterSets, setNum).Ok?
    ensures var a := ActivationOf(orig, Some(fso), filterSets, setNum).value;
      ActivationOf(orig, Some(a.fso), filterSets, setNum) == Ok(a)
  {
    var options := SetOptions(fso, setNum).value;
    if options.Some? {
      SetOptionsStable(fso, setNum);
      var newFso := fso[setNum := Dict(options.value)];
      assert newFso[setNum := Dict(options.value)] == newFso;
    }
  }

  /**
   * Outside `mapFilters` and `forcedPhotometryCatalog`, the new parameters
   * differ from the original ones only in the four permitted override keys.
   */
  lemma {:induction false} FilterSetOnlyOverrides(orig: Fields, origMaps: seq<Value>, fso: map<int, Value>,
                                                 filterSets: seq<int>, setNum: int, k: string)
    requires FilterSetResult(orig, origMaps, Some(fso), filterSets, setNum).Ok?
    requires k in orig && k !in PermittedOverrides && k != "mapFilters" && k != "forcedPhotometryCatalog"
    ensures var pd := FilterSetResult(orig, origMaps, Some(fso), filterSets, setNum).value.parDict;
      k in pd && pd[k] == orig[k]
  {
    var a := ActivationOf(orig, Some(fso), filterSets, setNum).value;
    assert FilterSetResult(orig, origMaps, Some(fso), filterSets, setNum).value.parDict == a.parDict;
    var options := SetOptions(fso, setNum).value;
    var pd1 := if options.Some? then Overridden(orig, options.value) else orig;
    assert k in pd1 && pd1[k] == orig[k];
  }

  /** The steps of `setFilterSet` after `restoreConfig`, on the restored values. */
  method ComputeFilterSet(orig: Fields, origMaps: seq<Value>, fsOptions: Option<map<int, Value>>,
                          filterSets: seq<int>, setNum: int) returns (r: Result<FilterSetState, ConfigError>)
    ensures r == FilterSetResult(orig, origMaps, fsOptions, filterSets, setNum)
  {
    var a :- ActivateFilterSet(orig, fsOptions, filterSets, setNum);
    var maps :- UpdateMaps(origMaps, a);
    return Ok(FilterSetState(a.parDict, maps, a.fso));
  }

  method ActivateFilterSet(orig: Fields, fsOptions: Option<map<int, Value>>, filterSets: seq<int>, setNum: int)
    returns (r: Result<Activation, ConfigError>)
    ensures r == ActivationOf(orig, fsOptions, filterSets, setNum)
  {
    if fsOptions.None? {
      return Err(Malformed("filterSetOptions"));
    }
    var fso := fsOptions.value;
    var options :- SetOptions(fso, setNum);
    SetOptionsPresent(fso, setNum, options);
    var parDict := orig;
    if options.Some? {
      fso := fso[setNum := Dict(options.value)];
      parDict := Overridden(parDict, options.value);
    }
    if "mapFilters" !in parDict {
      return Err(MissingKey("mapFilters"));
    }
    if !parDict["mapFilters"].List? {
      return Err(Malformed("mapFilters"));
    }
    var acts :- ActivateFilters(parDict["mapFilters"].items, setNum, options, fso, filterSets);
    var forcedOff := |acts| > 0 && NotLastSet(filterSets, setNum) == Ok(true);
    parDict := parDict["mapFilters" := List(acts)];
    if forcedOff {
      parDict := parDict["forcedPhotometryCatalog" := Null];
    }
    return Ok(Activation(parDict, options, fso));
  }

  method UpdateMaps(origMaps: seq<Value>, a: Activation) returns (r: Result<seq<Value>, ConfigError>)
    requires HasMapOptions(a)
    ensures r == MapsOf(origMaps, a)
  {
    var maps := origMaps;
    if a.options.Some? && "subtractModelFromSets" in a.options.value {
      maps :- UpdateEach(maps, "unfilteredMaps", SubtractStep(a.fso, a.options.value["subtractModelFromSets"]));
    }
    if a.options.Some? {
      maps :- UpdateEach(maps, "unfilteredMaps", MapOptionsStep(a.options.value));
    }
    return Ok(maps);
  }

  // ------------------------------------------------------------ NemoConfig

  /** Every tile is handed to the rank its position selects, so no tile is lost. */
  lemma {:induction false} RankTilesCover(tiles: seq<string>, size: nat, k: nat)
    requires size > 0 && k < |tiles|
    ensures tiles[k] in RankTiles(tiles, size, k % size)
  {
    var p := RankPositions(|tiles|, size, k % size);
    RankPositionsPartition(|tiles|, size, k, k % size);
    var i :| 0 <= i < |p| && p[i] == k;
    assert RankTiles(tiles, size, k % size)[i] == tiles[k];
  }

  /** The two command-line switches, which only ever turn a key on. */
  function CommandLineOverrides(config: Fields, calcSelFn: bool, sourceInjectionTest: bool): (r: Fields)
    ensures calcSelFn ==> "calcSelFn" in r && r["calcSelFn"] == Bool(true)
    ensures sourceInjectionTest ==> "sourceInjectionTest" in r && r["sourceInjectionTest"] == Bool(true)
    ensures forall k ::
      (k in config && !(k == "calcSelFn" && calcSelFn) && !(k == "sourceInjectionTest" && sourceInjectionTest)) ==>
      k in r && r[k] == config[k]
    ensures forall k :: k in r ==> k in config || k == "calcSelFn" || k == "sourceInjectionTest"
  {
    var c1 := if calcSelFn then config["calcSelFn" := Bool(true)] else config;
    if sourceInjectionTest then c1["sourceInjectionTest" := Bool(true)] else c1
  }

  /** The tiles a run works on before any division between processes. */
  function TileSelection(pd: Fields, mapTileNames: seq<string>): (r: Result<seq<string>, ConfigError>)
    ensures r.Ok? ==> forall x :: x in r.value ==> x in mapTileNames
    ensures r.Ok? && "tileNameList" in pd ==>
      pd["tileNameList"].List? && r.value != [] && forall x :: x in r.value ==> Str(x) in pd["tileNameList"].items
    ensures "tileNameList" !in pd ==> r == Ok(mapTileNames)
  {
    if "tileNameList" !in pd then Ok(mapTileNames)
    else if !pd["tileNameList"].List? then Err(Malformed("tileNameList"))
    else if SelectTiles(mapTileNames, pd["tileNameList"].items) == [] then Err(NoMatchingTiles)
    else Ok(SelectTiles(mapTileNames, pd["tileNameList"].items))
  }

  /** `name.find(".yml") != -1`. */
  function HasYml(name: string): (b: bool)
    ensures b ==> |name| >= 4
    decreases |name|
  {
    |name| >= 4 && (name[..4] == ".yml" || HasYml(name[1..]))
  }

  /**
   * The output-directory check: without `outputDir` the directory is named
   * after the configuration file, which must then be a ".yml" name when
   * directories are to be made.
   */
  predicate OutputDirOk(pd: Fields, configFileName: string, makeOutputDirs: bool)
  {
    "outputDir" in pd || HasYml(configFileName) || !makeOutputDirs
  }

  /** The state `NemoConfig.__init__` leaves behind. */
  datatype ConfigState = ConfigState(parDict: Fields, tileNames: seq<string>, allTileNames: seq<string>, info: FilterSetInfo)

  /**
   * `NemoConfig.__init__` on an already parsed dictionary: `configFileName`
   * is the path it was read from ("" for a dictionary), `commSize` and
   * `commRank` are what the MPI communicator reports, `mapTileNames` the tile
   * names the map set-up (or the cached tile dictionary) provides.
   */
  function SetUp(config: Fields, configFileName: string, makeOutputDirs: bool, mpiEnabled: bool, commSize: nat,
                 commRank: nat, calcSelFn: bool, sourceInjectionTest: bool, divideTilesByProcesses: bool,
                 mapTileNames: seq<string>)
    : Result<ConfigState, ConfigError>
    requires commRank < commSize
  {
    if mpiEnabled && commSize == 1 then Err(SingleProcessMPI)
    else
      var pd := CommandLineOverrides(config, calcSelFn, sourceInjectionTest);
      if !OutputDirOk(pd, configFileName, makeOutputDirs) then Err(NotYmlFile)
      else
      var all :- TileSelection(pd, mapTileNames);
      var mine := if mpiEnabled && divideTilesByProcesses then RankTiles(all, commSize, commRank) else all;
      var info :- FilterSetsOf(pd);
      Ok(ConfigState(pd, mine, all, info))
  }

  /**
   * With the tiles divided between processes, each process keeps every
   * `size`-th tile from its rank onward, all tiles are handed out, and every
   * tile a process keeps is one of the selected tiles.
   */
  lemma {:induction false} SetUpDividesTiles(config: Fields, configFileName: string, makeOutputDirs: bool,
                                            commSize: nat, commRank: nat, calcSelFn: bool,
                                            sourceInjectionTest: bool, mapTileNames: seq<string>)
    requires commRank < commSize
    requires SetUp(config, configFileName, makeOutputDirs, true, commSize, commRank, calcSelFn, sourceInjectionTest, true, mapTileNames).Ok?
    ensures var s := SetUp(config, configFileName, makeOutputDirs, true, commSize, commRank, calcSelFn, sourceInjectionTest, true, mapTileNames).value;
      commSize > 1 &&
      s.tileNames == RankTiles(s.allTileNames, commSize, commRank) &&
      (forall x :: x in s.tileNames ==> x in s.allTileNames) &&
      forall k :: 0 <= k < |s.allTileNames| ==> s.allTileNames[k] in RankTiles(s.allTileNames, commSize, k % commSize)
  {
    var s := SetUp(config, configFileName, makeOutputDirs, true, commSize, commRank, calcSelFn, sourceInjectionTest, true, mapTileNames).value;
    forall k | 0 <= k < |s.allTileNames|
      ensures s.allTileNames[k] in RankTiles(s.allTileNames, commSize, k % commSize)
    {
      RankTilesCover(s.allTileNames, commSize, k);
    }
  }

  /** Without tile division every selected tile is worked on, and the overrides are in place. */
  lemma {:induction false} SetUpSingleProcess(config: Fields, configFileName: string, makeOutputDirs: bool,
                                             calcSelFn: bool, sourceInjectionTest: bool,
                                             divideTilesByProcesses: bool, mapTileNames: seq<string>)
    requires SetUp(config, configFileName, makeOutputDirs, false, 1, 0, calcSelFn, sourceInjectionTest, divideTilesByProcesses, mapTileNames).Ok?
    ensures var s := SetUp(config, configFileName, makeOutputDirs, false, 1, 0, calcSelFn, sourceInjectionTest, divideTilesByProcesses, mapTileNames).value;
      s.tileNames == s.allTileNames &&
      ("tileNameList" !in config ==> s.tileNames == mapTileNames) &&
      (calcSelFn ==> s.parDict["calcSelFn"] == Bool(true))
  {
  }

  /**
   * A configuration given as a dictionary has no file name, so without
   * `outputDir` it is refused whenever output directories are to be made;
   * with `outputDir` the file name and the switch make no difference.
   */
  lemma {:induction false} DictConfigNeedsOutputDir(config: Fields, mpiEnabled: bool, commSize: nat, commRank: nat,
                                                   calcSelFn: bool, sourceInjectionTest: bool,
                                                   divideTilesByProcesses: bool, mapTileNames: seq<string>)
    requires commRank < commSize && !(mpiEnabled && commSize == 1)
    ensures "outputDir" !in config ==>
      SetUp(config, "", true, mpiEnabled, commSize, commRank, calcSelFn, sourceInjectionTest,
            divideTilesByProcesses, mapTileNames) == Err(NotYmlFile)
    ensures "outputDir" in config ==>
      forall name: string, make: bool ::
        SetUp(config, name, make, mpiEnabled, commSize, commRank, calcSelFn, sourceInjectionTest,
              divideTilesByProcesses, mapTileNames) ==
        SetUp(config, "", true, mpiEnabled, commSize, commRank, calcSelFn, sourceInjectionTest,
              divideTilesByProcesses, mapTileNames)
  {
    var pd := CommandLineOverrides(config, calcSelFn, sourceInjectionTest);
    assert "outputDir" in pd <==> "outputDir" in config;
  }

  /** The configuration object: the parts of `NemoConfig` that are plain data. */
  class NemoConfig {
    var parDict: Fields
    const origParDict: Fields
    var tileNames: seq<string>
    const allTileNames: seq<string>
    const mpiEnabled: bool
    const rank: nat
    const size: nat
    const filterSets: seq<int>
    var filterSetOptions: Option<map<int, Value>>
    const filterSetLabels: map<int, Value>
    var unfilteredMapsDictList: seq<Value>
    const origUnfilteredMapsDictList: seq<Value>

    /** Records a set-up state, with the copies `restoreConfig` goes back to. */
    constructor (s: ConfigState, mpiEnabled: bool, size: nat, rank: nat, maps: seq<Value>)
      ensures this.parDict == s.parDict && origParDict == s.parDict
      ensures tileNames == s.tileNames && allTileNames == s.allTileNames
      ensures this.mpiEnabled == mpiEnabled && this.size == size && this.rank == rank
      ensures filterSets == s.info.sets && filterSetOptions == s.info.options && filterSetLabels == s.info.labels
      ensures unfilteredMapsDictList == maps && origUnfilteredMapsDictList == maps
    {
      this.parDict := s.parDict;
      origParDict := s.parDict;
      tileNames := s.tileNames;
      allTileNames := s.allTileNames;
      this.mpiEnabled := mpiEnabled;
      this.size := size;
      this.rank := rank;
      filterSets := s.info.sets;
      filterSetOptions := s.info.options;
      filterSetLabels := s.info.labels;
      unfilteredMapsDictList := maps;
      origUnfilteredMapsDictList := maps;
    }

    /** `restoreConfig`: back to the parameters and maps of the configuration file. */
    method RestoreConfig()
      modifies this
      ensures parDict == origParDict && unfilteredMapsDictList == origUnfilteredMapsDictList
      ensures tileNames == old(tileNames) && filterSetOptions == old(filterSetOptions)
    {
      parDict := origParDict;
      unfilteredMapsDictList := origUnfilteredMapsDictList;
    }

    /**
     * `setFilterSet(setNum)`: on success the parameters, the maps and the
     * filter-set options are those `FilterSetResult` describes, computed from
     * the original configuration whatever earlier calls did to it.
     */
    method SetFilterSet(setNum: int) returns (err: Option<ConfigError>)
      modifies this
      ensures var res := FilterSetResult(origParDict, origUnfilteredMapsDictList, old(filterSetOptions), filterSets, setNum);
        (err.None? <==> res.Ok?) &&
        (res.Err? ==> err == Some(res.error)) &&
        (res.Ok? ==>
          parDict == res.value.parDict && unfilteredMapsDictList == res.value.maps &&
          filterSetOptions == Some(res.value.options))
      ensures tileNames == old(tileNames)
    {
      RestoreConfig();
      var res := ComputeFilterSet(parDict, unfilteredMapsDictList, filterSetOptions, filterSets, setNum);
      if res.Err? {
        return Some(res.error);
      }
      parDict, unfilteredMapsDictList, filterSetOptions := res.value.parDict, res.value.maps, Some(res.value.options);
      return None;
    }
  }

  /**
   * `NemoConfig(config, ...)`: the set-up checks and loops, raising where the
   * source raises; `maps` is the map list the map set-up produces.
   */
  method NewNemoConfig(config: Fields, configFileName: string, makeOutputDirs: bool, mpiEnabled: bool,
                       commSize: nat, commRank: nat, calcSelFn: bool, sourceInjectionTest: bool,
                       divideTilesByProcesses: bool, mapTileNames: seq<string>, maps: seq<Value>)
    returns (r: Result<NemoConfig, ConfigError>)
    requires commRank < commSize
    ensures var s := SetUp(config, configFileName, makeOutputDirs, mpiEnabled, commSize, commRank, calcSelFn,
                           sourceInjectionTest, divideTilesByProcesses, mapTileNames);
      (r.Ok? <==> s.Ok?) && (r.Err? ==> r.error == s.error) &&
      (r.Ok? ==>
        fresh(r.value) && r.value.parDict == s.value.parDict && r.value.tileNames == s.value.tileNames &&
        r.value.allTileNames == s.value.allTileNames && r.value.filterSets == s.value.info.sets &&
        r.value.filterSetOptions == s.value.info.options && r.value.unfilteredMapsDictList == maps)
  {
    var s :- ComputeSetUp(config, configFileName, makeOutputDirs, mpiEnabled, commSize, commRank, calcSelFn,
                          sourceInjectionTest, divideTilesByProcesses, mapTileNames);
    var size, rank := if mpiEnabled then commSize else 1, if mpiEnabled then commRank else 0;
    var c := new NemoConfig(s, mpiEnabled, size, rank, maps);
    return Ok(c);
  }

  /** The checks and loops of `NemoConfig.__init__`, before the object records their outcome. */
  method ComputeSetUp(config: Fields, configFileName: string, makeOutputDirs: bool, mpiEnabled: bool,
                      commSize: nat, commRank: nat, calcSelFn: bool, sourceInjectionTest: bool,
                      divideTilesByProcesses: bool, mapTileNames: seq<string>)
    returns (r: Result<ConfigState, ConfigError>)
    requires commRank < commSize
    ensures r == SetUp(config, configFileName, makeOutputDirs, mpiEnabled, commSize, commRank, calcSelFn,
                       sourceInjectionTest, divideTilesByProcesses, mapTileNames)
  {
    var size, rank := 1, 0;
    if mpiEnabled {
      size, rank := commSize, commRank;
      if size == 1 {
        return Err(SingleProcessMPI);
      }
    }
    var parDict := CommandLineOverrides(config, calcSelFn, sourceInjectionTest);
    if "outputDir" !in parDict && !HasYml(configFileName) && makeOutputDirs {
      return Err(NotYmlFile);
    }
    var tileNames :- SelectTileNames(parDict, mapTileNames);
    var allTileNames := tileNames;
    if mpiEnabled && divideTilesByProcesses {
      var rankExtNames := RoundRobin(tileNames, size);
      RankShare(tileNames, size, rank, rankExtNames);
      tileNames := if rank in rankExtNames then rankExtNames[rank] else [];
    }
    var info :- IdentifyFilterSets(parDict);
    return Ok(ConfigState(parDict, tileNames, allTileNames, info));
  }

  /** The `tileNameList` branch of `NemoConfig.__init__`. */
  method SelectTileNames(pd: Fields, mapTileNames: seq<string>) returns (r: Result<seq<string>, ConfigError>)
    ensures r == TileSelection(pd, mapTileNames)
  {
    if "tileNameList" !in pd {
      return Ok(mapTileNames);
    }
    if !pd["tileNameList"].List? {
      return Err(Malformed("tileNameList"));
    }
    r := FilterTileNames(mapTileNames, pd["tileNameList"].items);
  }
}
