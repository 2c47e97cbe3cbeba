# nemo core in Dafny

A Dafny model of the core of nemo, a pipeline for finding galaxy clusters
through the Sunyaev-Zel'dovich effect in millimetre-wave sky maps. The model
covers six source files:

- **MockSurvey** (`nemo/MockSurvey.py`) is the `MockSurvey` class. It counts
  the clusters expected on a grid of redshift shells and mass bins. It prepares
  the splines for drawing mock samples and applies a selection function. It
  also counts the clusters expected inside mass and redshift limits, and draws
  mock catalogues.
- **SelFn** (`nemo/SelFn.py`) is the `SelFn` class. It checks the footprint,
  builds the per-tile table of areas and noise, and keeps the survey completeness
  grid as the area-weighted average of the tiles' grids.
- **StartUp** (`nemo/startUp.py`) covers two things:
  - `parseConfigFile`: mask keys, merging `allFilters` into each filter, the
    `photFilter` save switches, upper-casing tile names, defaults, the
    duplicate-tile check, GNFW parameters and legacy keys;
  - the `NemoConfig` class: command-line overrides, tile selection, the
    round-robin division of tiles between processes, filter-set
    identification, `restoreConfig` and `setFilterSet`.
- **Maps** (`nemo/maps.py`):
  - unit conversions between micro-Kelvin and Compton y, and from Jy/sr;
  - the array steps of `preprocessMapDict`;
  - the tile-deck file naming of `makeTileDeck`;
  - the contamination tables of `estimateContamination`;
  - the S/N-binned percentiles of `positionRecoveryTest`;
  - the label search of `plotPositionRecovery`.
- **Photometry** (`nemo/photometry.py`):
  - `findObjects`: thresholding, the border window, the point-source mask
    and the numbered catalogue;
  - `getSNValues`: the template-key search and the S/N reads;
  - `measureFluxes`: the flux columns by map units;
  - `makeAnnulus`.
- **SimsTools** (`nemo/simsTools.py`):
  - `parseInputSimCatalog`;
  - `matchAgainstSimCatalog` and `simpleCatalogMatch`;
  - the contamination estimate from inverted maps;
  - the cuts of `getInputSimApertureFluxes`;
  - the recovery counters of `fakeSourceSims`.

Two shared modules complete the project:

- **Common** holds sums, `np.cumsum`, `np.where(...)[0][0]`, Python 2 `round`
  and `int()`.
- **Binning** holds `np.histogram` and the suffix sums `hist[i:].sum()`.

Floating-point values are `real`s.

Routines the core calls but does not define are function-typed parameters of
the model, usually with the range facts the model relies on as preconditions:

- the halo mass function and the comoving volume;
- splines, `norm.sf` and `np.percentile`;
- `signals.fSZ`;
- WCS conversions and angular separations;
- `float()` and `coordsAreInImage`;
- the aperture flux.

Random draws are inputs. Exceptions and `sys.exit` become `Result` errors,
except inside the MockSurvey constructor. There a failed sampler set-up
is recorded as a `Failed` sampler state. `MockSurvey.NewMockSurvey` and
`SelFn.NewSelFn` turn that state into the error the caller sees.

Classes whose fields the source updates become Dafny classes:

- `MockSurvey.MockSurvey`
- `SelFn.SelFn`
- `StartUp.NemoConfig`
- `SimsTools.RecoveryTally`

Each loop of the source is a method whose `ensures` ties its result to a
specification function. The properties are lemmas about those functions.

## Model

| member | source | states |
|---|---|---|
| Common.CumSum | nemo/MockSurvey.py:70 | `np.cumsum` keeps the length; entry i is the sum of the first i + 1 values |
| Common.FirstIndex | nemo/MockSurvey.py:84 | the first position holding the value: it holds it, no earlier one does, and a repeated value is found before the last position |
| Common.RoundHalfAway | nemo/photometry.py:376-377 | Python 2 `round` (the package is Python 2: photometry.py imports simsTools, which uses `print` statements): within 0.5 of the input, ties go away from zero, and non-negative input rounds to a non-negative integer |
| Common.TruncToInt | nemo/MockSurvey.py:237 | `int()` truncates toward zero: never larger in magnitude, less than 1 away, non-negative for non-negative input |
| Binning.Histogram | nemo/maps.py:1228-1229 | `np.histogram` gives one non-negative count per bin |
| Binning.BinUnique | nemo/maps.py:1228-1229 | with strictly increasing edges a value falls in at most one bin |
| Binning.CountLastBin | nemo/maps.py:1228-1229 | the last bin of `np.histogram` is closed at both ends |
| Binning.SuffixCountsAbove | nemo/maps.py:1231-1235 | `hist[i:].sum()` counts exactly the values at or above edge i (and within the last edge) |
| Binning.SuffixSumsOf | nemo/maps.py:1231-1237 | one suffix sum per bin, shared by maps.py and simsTools.py (SuffixCountsAbove states what each counts) |
| Binning.SuffixSums | nemo/simsTools.py:980-984 | the loop appends `hist[i:].sum()` for every bin i |
| Binning.SumFrom | nemo/simsTools.py:983 | the loop computes `hist[i:].sum()` |
| Binning.SuffixSumsNonincreasing | nemo/simsTools.py:980-984 | suffix sums of counts are non-negative and never grow with i |
| MockSurvey.Edges | nemo/MockSurvey.py:37 | 201 redshift edges, the first zMin and the last zMax |
| MockSurvey.Centres | nemo/MockSurvey.py:56 | one mid-point per shell |
| MockSurvey.EdgesIncreasing | nemo/MockSurvey.py:37 | for zMin < zMax the edges increase strictly |
| MockSurvey.EdgesAndCentres | nemo/MockSurvey.py:37-56 | for zMin < zMax the edges increase, each centre lies strictly inside its shell, and the centres increase |
| MockSurvey.CentresBetween | nemo/MockSurvey.py:56 | mid-points of strictly increasing edges lie inside their shells and increase |
| MockSurvey.AreaSr | nemo/MockSurvey.py:38 | the solid angle is non-negative and zero exactly for a zero area |
| MockSurvey.Gradient | nemo/MockSurvey.py:122 | `np.gradient` gives one value per mass bin |
| MockSurvey.GradientOfNonincreasing | nemo/MockSurvey.py:121-122 | the gradient of a cumulative density that does not rise with mass is never positive, so `abs` is its negation |
| MockSurvey.ShellVolumes | nemo/MockSurvey.py:124-125 | one volume per shell |
| MockSurvey.ShellDensity | nemo/MockSurvey.py:120-122 | one number density per mass bin |
| MockSurvey.DensityGrid | nemo/MockSurvey.py:113-128 | one density row per shell |
| MockSurvey.CountGrid | nemo/MockSurvey.py:113-129 | one row of counts per shell, one count per mass bin |
| MockSurvey.CountsNonNeg | nemo/MockSurvey.py:116-133 | with ordered edges and a non-negative area every expected count, and the total, is non-negative |
| MockSurvey.ZeroAreaZeroCounts | nemo/MockSurvey.py:125-133 | a survey of zero area expects no clusters |
| MockSurvey.VolumeTelescopes | nemo/MockSurvey.py:124-126 | the summed shell volumes equal the volume between the first and the last edge, scaled by the sky fraction |
| MockSurvey.Cdf | nemo/MockSurvey.py:79 | one value per mass bin |
| MockSurvey.CdfOfNonNeg | nemo/MockSurvey.py:70-79 | non-negative counts with a non-zero total give a non-decreasing distribution in [0, 1] that ends at 1 |
| MockSurvey.TruncateOk | nemo/MockSurvey.py:81-84 | a successful truncation keeps a non-empty prefix whose maximum occurs once; if anything was cut, every kept value lies below the value at the cut |
| MockSurvey.TruncateUnique | nemo/MockSurvey.py:82 | a prefix whose maximum is unique is kept whole |
| MockSurvey.TruncateErr | nemo/MockSurvey.py:81-84 | the truncation fails only when the prefix is empty or its first value is repeated |
| MockSurvey.TruncateRepeatedMaxima | nemo/MockSurvey.py:81-84 | the `while` loop computes the truncation |
| MockSurvey.RowStatusOf | nemo/MockSurvey.py:78-85 | a cut row has one distribution value per mass bin and keeps more than three points, the minimum for `splrep`'s cubic spline; a shorter cut, or a row of at most three bins, raises |
| MockSurvey.RowFailure | nemo/MockSurvey.py:82-85 | a row that raises does so at its own index, with the ValueError of an empty truncation or the TypeError of a spline fit with too few points |
| MockSurvey.FirstRaise | nemo/MockSurvey.py:77-85 | the first row whose truncation or spline fit raises, or the row count |
| MockSurvey.FirstZeroRow | nemo/MockSurvey.py:87-91 | the first row whose spline has NaN coefficients, or the row count |
| MockSurvey.Statuses | nemo/MockSurvey.py:77-85 | one status per redshift row |
| MockSurvey.SamplerReadyIff | nemo/MockSurvey.py:66-91 | the sampler is ready exactly when the total is non-zero and every row has a non-zero sum and a truncation that keeps more than three points |
| MockSurvey.ShortCutRaises | nemo/MockSurvey.py:80-85 | a row [a, b, c, 0] of positive a, b, c is cut to two points, and the set-up raises at that row |
| MockSurvey.StepRowCdf | nemo/MockSurvey.py:79-80 | the distribution function of [a, b, c, 0] is [a/t, (a+b)/t, 1, 1] with t = a + b + c, strictly increasing up to 1 |
| MockSurvey.StepRowSums | nemo/MockSurvey.py:78-79 | the row [a, b, c, 0] sums to a + b + c, with running sums a, a + b, a + b + c, a + b + c |
| MockSurvey.TruncateToTwo | nemo/MockSurvey.py:81-84 | the truncation of [x, y, 1, 1] with 0 < x < y < 1 stops after two values |
| MockSurvey.SamplerRedshiftCdf | nemo/MockSurvey.py:69-70 | for non-negative counts the redshift distribution is non-decreasing and ends at 1 |
| MockSurvey.SamplerRowsCut | nemo/MockSurvey.py:81-85 | every row of a ready sampler keeps a prefix whose largest value occurs once |
| MockSurvey.SamplerShape | nemo/MockSurvey.py:69-85 | a ready sampler has one distribution per row over that row's mass bins |
| MockSurvey.SamplerForFits | nemo/MockSurvey.py:66-91 | the sampler of a grid with rows of nm values fits that grid |
| MockSurvey.CutRow | nemo/MockSurvey.py:78-85 | one pass of the row loop computes that row's status |
| MockSurvey.CutRows | nemo/MockSurvey.py:77-85 | the row loop gives every row's status, or stops at the first row that raises, with that row's exception |
| MockSurvey.FirstNaNRow | nemo/MockSurvey.py:87-91 | the NaN check finds the first row that sums to zero |
| MockSurvey.PrepareSampler | nemo/MockSurvey.py:66-91 | the spline preparation computes the sampler state |
| MockSurvey.NormSFBounded | nemo/MockSurvey.py:166 | `norm.sf` values are probabilities |
| MockSurvey.DetPInUnitInterval | nemo/MockSurvey.py:161-181 | every per-tile and survey-averaged detection probability lies in [0, 1] |
| MockSurvey.Select | nemo/MockSurvey.py:206 | boolean-mask indexing never lengthens |
| MockSurvey.ZMask | nemo/MockSurvey.py:203 | one flag per shell |
| MockSurvey.MMask | nemo/MockSurvey.py:204 | one flag per mass bin |
| MockSurvey.SelectAll | nemo/MockSurvey.py:206 | an all-true mask keeps everything |
| MockSurvey.SelectSumMonotone | nemo/MockSurvey.py:206 | selecting fewer non-negative values never sums to more |
| MockSurvey.SelectNonNeg | nemo/MockSurvey.py:206 | selection keeps non-negativity |
| MockSurvey.SelectZero | nemo/MockSurvey.py:206 | selection keeps zeros |
| MockSurvey.SelectMembers | nemo/MockSurvey.py:206 | every selected element comes from the input |
| MockSurvey.Weighted | nemo/MockSurvey.py:193-201 | the weighted grid has the count grid's shape; without the selection function it is the count grid; asking for a missing selection function is an error |
| MockSurvey.ExpectedCountAll | nemo/MockSurvey.py:203-206 | with limits enclosing every shell and mass bin, the expected count is the grid total |
| MockSurvey.ExpectedCountMonotone | nemo/MockSurvey.py:204-206 | raising the mass limit never raises the expected count |
| MockSurvey.SelectedRowSums | nemo/MockSurvey.py:206 | keeping the same rows keeps a row-sum comparison between totals |
| MockSurvey.ExpectedCountZero | nemo/MockSurvey.py:203-206 | a grid of zeros expects zero clusters whatever the limits |
| MockSurvey.ZeroRowsSumZero | nemo/MockSurvey.py:206 | a grid of zero rows sums to zero |
| MockSurvey.WeightedZeroCompleteness | nemo/MockSurvey.py:193-199 | zero completeness gives an all-zero weighted grid on both branches |
| MockSurvey.WeightedFullCompleteness | nemo/MockSurvey.py:194-195 | a survey-averaged completeness of one leaves the count grid unchanged |
| MockSurvey.NearestIndex | nemo/MockSurvey.py:242 | the first grid position nearest to the value |
| MockSurvey.DecimalString | nemo/MockSurvey.py:269 | `'%d'` gives a non-empty string of decimal digits |
| MockSurvey.MockClusterOf | nemo/MockSurvey.py:255-276 | an accepted trial i becomes catalogue entry number i + 1 |
| MockSurvey.KeptEntriesAreTrials | nemo/MockSurvey.py:237-279 | at most one entry per trial, each the outcome of its own trial, numbered 1 to n |
| MockSurvey.KeptOrdered | nemo/MockSurvey.py:237-279 | entries appear in increasing trial order |
| MockSurvey.KeptComplete | nemo/MockSurvey.py:237-279 | every accepted trial is kept |
| MockSurvey.CountShell | nemo/MockSurvey.py:117-125 | one loop pass computes the shell's density and its volume |
| MockSurvey.CountShells | nemo/MockSurvey.py:113-129 | the loop computes the density grid, the count grid and the total volume |
| MockSurvey.CompletenessCube | nemo/MockSurvey.py:155-166 | one completeness grid per tile, of the redshift-by-mass shape |
| MockSurvey.SurveyAverageGrid | nemo/MockSurvey.py:172-181 | one survey-averaged completeness per grid cell |
| MockSurvey.TileCompleteness | nemo/MockSurvey.py:155-166 | the first loop of `addSelFn` computes the per-tile completeness cube |
| MockSurvey.SurveyAverageCompleteness | nemo/MockSurvey.py:172-181 | the second loop computes the survey-averaged completeness grid |
| MockSurvey.CompletenessInUnitInterval | nemo/MockSurvey.py:155-181 | every completeness `addSelFn` stores lies in [0, 1] |
| MockSurvey.NoisePositive | nemo/MockSurvey.py:232 | a non-empty `ycLimit_surveyAverage` with a positive sum gives a positive survey-averaged noise |
| MockSurvey.DrawTrial | nemo/MockSurvey.py:240-279 | one trial keeps a cluster only when its roll is below the detection probability; the cluster is numbered i + 1 |
| MockSurvey.DrawTrials | nemo/MockSurvey.py:236-279 | the loop keeps exactly the accepted trials, in order |
| MockSurvey.MockSurvey.constructor | nemo/MockSurvey.py:26-91 | the edges, the area, the masses and the counts for the cosmology; the sampler is prepared exactly when drawing is enabled, a failed preparation recorded as a `Failed` state; no selection function yet |
| MockSurvey.NewMockSurvey | nemo/MockSurvey.py:26-91 | construction raises exactly when drawing is enabled and the sampler set-up fails (zero total, a truncation that empties a row, a spline fit through three points or fewer, a row of NaN coefficients), with that reason; otherwise a valid survey with the initial sampler |
| MockSurvey.MockSurvey.DoClusterCount | nemo/MockSurvey.py:103-134 | recounts the density grid, the counts, the volume, the total and the per-redshift totals; nothing else changes |
| MockSurvey.MockSurvey.Update | nemo/MockSurvey.py:94-100 | new cosmology and recount; the sampler and the selection function are kept |
| MockSurvey.MockSurvey.AddSelFn | nemo/MockSurvey.py:137-181 | stores the selection function, the scaling relation and both completeness grids; counts unchanged |
| MockSurvey.MockSurvey.CalcNumClustersExpected | nemo/MockSurvey.py:184-206 | the masked sum of the (optionally weighted) grid; a missing selection function is an error |
| MockSurvey.MockSurvey.CalcNumClustersExpectedAll | nemo/MockSurvey.py:184-206 | without selection and with enclosing limits, the expected count is `numClusters` |
| MockSurvey.MockSurvey.Context | nemo/MockSurvey.py:232-248 | the fields one draw reads are consistent |
| MockSurvey.MockSurvey.DrawSample | nemo/MockSurvey.py:221-279 | one trial per whole expected cluster; the catalogue is exactly the accepted trials in order; errors without a selection function, without a sampler, or with a survey-averaged noise that is not positive |
| SelFn.CheckFootprint | nemo/SelFn.py:44-52 | passes exactly when no footprint is asked for or it is among the defined labels; otherwise the matching exception |
| SelFn.TileAreas | nemo/SelFn.py:109-112 | one area per tile record |
| SelFn.AreasOf | nemo/SelFn.py:66-67 | one area per tile name |
| SelFn.TileTable | nemo/SelFn.py:64-74 | one record per tile with its name, noise and area; the total is the sum of the areas |
| SelFn.TotalAreaNonNeg | nemo/SelFn.py:65-74 | the total area is non-negative |
| SelFn.Refit | nemo/SelFn.py:111-114 | every tile keeps its name, noise and area and gets the table fitted for the new parameters |
| SelFn.Cube | nemo/SelFn.py:115-118 | one grid per tile, each of the redshift-by-mass shape once tables are set |
| SelFn.FracArea | nemo/SelFn.py:117 | one area fraction per tile |
| SelFn.Column | nemo/SelFn.py:119 | one value per tile |
| SelFn.Products | nemo/SelFn.py:119 | one product per tile |
| SelFn.WeightedAverage | nemo/SelFn.py:119 | `np.average` succeeds exactly when the weights do not sum to zero, and then each cell is the weighted mean across tiles |
| SelFn.SameGrid | nemo/SelFn.py:119 | grids agreeing cell by cell are equal |
| SelFn.WeightedMeanScaleInvariant | nemo/SelFn.py:117-119 | scaling all weights by a non-zero factor leaves the mean unchanged |
| SelFn.WeightedAverageScaleInvariant | nemo/SelFn.py:117-119 | scaling all weights leaves `compMz` unchanged |
| SelFn.WeightedMeanInUnitInterval | nemo/SelFn.py:119 | non-negative weights of positive sum average probabilities to a probability |
| SelFn.WeightedAverageInUnitInterval | nemo/SelFn.py:119 | probability grids average to a probability grid |
| SelFn.WeightedMeanConstant | nemo/SelFn.py:119 | the weighted mean of a constant is that constant |
| SelFn.WeightedAverageUniform | nemo/SelFn.py:119 | tiles with the same grid average to that grid |
| SelFn.FracAreaSum | nemo/SelFn.py:116-117 | the fractions sum to the summed areas over the total |
| SelFn.AverageDefined | nemo/SelFn.py:109-119 | with the total the sum of the areas, the fractions sum to 1 and the average is defined |
| SelFn.RefitTiles | nemo/SelFn.py:109-118 | the loop computes the area list, the refreshed tables and the cube |
| SelFn.SelFn.constructor | nemo/SelFn.py:37-87 | the tile table and total area, the fiducial MockSurvey over that area with the sampler prepared from its first grid, and an initial update whose `compMz` is the area-weighted average |
| SelFn.SelFn.Update | nemo/SelFn.py:90-119 | the scaling relation changes only when one is given; the MockSurvey moves to the new cosmology; every table is refitted; `compMz` is the area-weighted average |
| SelFn.NewSelFn | nemo/SelFn.py:25-87 | construction succeeds exactly when the footprint check passes and the fiducial MockSurvey's sampler set-up does not fail; a sampler failure is reported with its reason, and a zero total area fails on the zero cluster total |
| SelFn.CompMzInUnitInterval | nemo/SelFn.py:109-119 | `compMz` is a probability grid when every tile's grid is |
| StartUp.UpdateEach | nemo/startUp.py:44-52 | the loop rewrites every entry of the list, stopping at the first that raises |
| StartUp.UpdateAllErrExtends | nemo/startUp.py:44-52 | an exception on a prefix is the exception of the whole loop |
| StartUp.UpdateList | nemo/startUp.py:44 | on success the key held a list, every entry was rewritten, and nothing else changed |
| StartUp.WithMaskKeys | nemo/startUp.py:44-52 | a map entry takes each of the seven mask keys from the top level (None when absent), `weightsType` defaults to 'invVar', every other key is kept |
| StartUp.MaskKeysEverywhere | nemo/startUp.py:42-52 | every map entry ends up with the seven mask keys and a weights type |
| StartUp.MergeFilter | nemo/startUp.py:58-78 | an empty filter is `allFilters`; otherwise the merge has the keys of both |
| StartUp.MergeFilterOwnValues | nemo/startUp.py:60-77 | the filter's own non-dictionary values win |
| StartUp.MergeFilterInherits | nemo/startUp.py:59-77 | keys the filter does not mention keep the `allFilters` value |
| StartUp.MergeFilterNested | nemo/startUp.py:61-75 | one level down, the filter's values win and unmentioned nested keys are inherited |
| StartUp.MergeFilterMissingNested | nemo/startUp.py:64-73 | the guards test the filter's own dictionary, so a third level under a parent missing from `allFilters` raises |
| StartUp.MergeStep | nemo/startUp.py:56-79 | only `mapFilters` can change |
| StartUp.MergeAllFilters | nemo/startUp.py:56-79 | the loop computes the merge step |
| StartUp.SetParams | nemo/startUp.py:90-92 | the listed parameters are set and the others kept |
| StartUp.PhotFilterEntry | nemo/startUp.py:88-92 | the filter named by `photFilter` gets its save switches; every other filter is unchanged |
| StartUp.PhotFilterStep | nemo/startUp.py:82-92 | `photFilter` is set (None when absent); only `mapFilters` can change otherwise |
| StartUp.ApplyPhotFilter | nemo/startUp.py:82-92 | the loop computes the `photFilter` step |
| StartUp.NoiseMaskStep | nemo/startUp.py:94-96 | only `mapFilters` can change, and nothing changes when `noiseMaskCatalog` is None |
| StartUp.ApplyNoiseMask | nemo/startUp.py:94-96 | the loop computes the noise-mask step |
| StartUp.Upper | nemo/startUp.py:102 | upper-casing keeps the length and leaves no lower-case ASCII letter |
| StartUp.UpperIdempotent | nemo/startUp.py:99-107 | upper-casing twice is upper-casing once |
| StartUp.UpperTileName | nemo/startUp.py:101-102 | succeeds exactly when the definition has a string name, which is upper-cased; the rest is kept |
| StartUp.UpperNames | nemo/startUp.py:104-106 | succeeds exactly when every entry is a string; each is upper-cased, in order |
| StartUp.UpperNameList | nemo/startUp.py:104-107 | the loop computes the upper-cased list |
| StartUp.UpperCaseStep | nemo/startUp.py:99-107 | only `tileDefinitions` and `tileNameList` can change; each tile definition becomes its upper-cased entry |
| StartUp.ApplyUpperCase | nemo/startUp.py:99-107 | the loops compute the upper-casing step |
| StartUp.TileNames | nemo/startUp.py:130-133 | one name per tile definition, in order |
| StartUp.TileNameCheckPasses | nemo/startUp.py:128-133 | the check passes exactly when every definition has a name and no name repeats |
| StartUp.TileNameCheckSound | nemo/startUp.py:128-133 | a passing check means every definition is named and no name repeats |
| StartUp.TileNameCheckComplete | nemo/startUp.py:128-133 | a failing check means some definition is unnamed or some name repeats |
| StartUp.CheckTileNames | nemo/startUp.py:129-133 | the loop with its `checkList` computes the check |
| StartUp.TileNameCheckExtends | nemo/startUp.py:129-133 | a failure on a prefix is the failure of the whole list |
| StartUp.DuplicateStep | nemo/startUp.py:128-133 | a check only: on success nothing changes |
| StartUp.CaseInsensitiveDuplicate | nemo/startUp.py:128-133 | two definitions with equal names make the duplicate check raise |
| StartUp.TilesReachUpperCase | nemo/startUp.py:42-98 | the map, filter and noise-mask steps hand `tileDefinitions` unchanged to the upper-casing |
| StartUp.UpperCaseClash | nemo/startUp.py:99-102 | after upper-casing, names that were equal up to letter case are equal |
| StartUp.ClashFailsChecks | nemo/startUp.py:109-133 | equal tile names survive the defaults and make the duplicate check raise |
| StartUp.CaseInsensitiveParseFails | nemo/startUp.py:99-133 | two definitions whose names differ only in letter case make the whole parse fail |
| StartUp.Default | nemo/startUp.py:109-110 | an absent key gets the value; a present one is kept |
| StartUp.Defaults | nemo/startUp.py:109-149 | a run of defaults keeps present keys and adds absent ones |
| StartUp.DefaultsAbsent | nemo/startUp.py:109-149 | an absent key takes the value its entry in the run gives |
| StartUp.DefaultsPresent | nemo/startUp.py:109-149 | keys already present are left alone, so applying a run twice equals applying it once |
| StartUp.SelFnMethodStep | nemo/startUp.py:123-124 | only `selFnOptions` can change, and it gets method 'fast' unless it names one |
| StartUp.GNFWStep | nemo/startUp.py:135-138 | `GNFWParams` defaults to 'default'; only `mapFilters` can change otherwise |
| StartUp.ApplyGNFW | nemo/startUp.py:135-138 | the loop computes the GNFW step |
| StartUp.RenameLegacy | nemo/startUp.py:156-164 | `makeTileDir` moves to `useTiling`, `tileDefLabel` is dropped, nothing else changes |
| StartUp.MapsAndFilters | nemo/startUp.py:42-107 | the map and filter rewriting up to upper-casing adds only `photFilter` to the keys |
| StartUp.RewriteMapsAndFilters | nemo/startUp.py:42-107 | the loops compute that rewriting |
| StartUp.DefaultsAndChecks | nemo/startUp.py:109-149 | every key is kept and every default key is present afterwards |
| StartUp.ApplyDefaultsAndChecks | nemo/startUp.py:109-149 | the loops compute that step |
| StartUp.ParseConfigFile | nemo/startUp.py:22-166 | computes the parsed configuration from the loaded dictionary and the change time |
| StartUp.ParsedConfigPhases | nemo/startUp.py:42-166 | both phases succeed exactly when the whole parse does |
| StartUp.FinalKeys | nemo/startUp.py:152-164 | the change time is recorded and the legacy keys are gone |
| StartUp.ParsedConfigKeys | nemo/startUp.py:82-164 | a parsed configuration has every default key, a `photFilter`, the change time and no legacy keys |
| StartUp.SelectTiles | nemo/startUp.py:313-316 | only tiles of `tileNames` that are listed, never more than there are tiles |
| StartUp.SelectTilesComplete | nemo/startUp.py:313-316 | no listed tile that exists is dropped |
| StartUp.SelectTilesAll | nemo/startUp.py:313-316 | when every tile is listed nothing changes |
| StartUp.FilterTileNames | nemo/startUp.py:313-316 | the selection, raising exactly when it is empty |
| StartUp.ModUnique | nemo/startUp.py:343-345 | a quotient and remainder in range are the ones `%` gives |
| StartUp.ModStep | nemo/startUp.py:343-345 | `rankCounter` is the position modulo `size` |
| StartUp.RankPositions | nemo/startUp.py:337-345 | positions below n congruent to the rank modulo `size`, increasing |
| StartUp.RankPositionsPartition | nemo/startUp.py:337-345 | every position goes to exactly one rank, its position modulo `size` |
| StartUp.RankTiles | nemo/startUp.py:337-345 | one tile per position given to the rank |
| StartUp.RankTilesEmpty | nemo/startUp.py:346-349 | a rank at or beyond the number of tiles gets none |
| StartUp.RoundRobin | nemo/startUp.py:337-345 | the map has an entry for every rank below both `size` and the tile count, and each entry is that rank's tiles |
| StartUp.RankShare | nemo/startUp.py:346-349 | the rank keeps its entry of the map, or nothing, which is its share either way |
| StartUp.RankTilesCover | nemo/startUp.py:337-349 | every tile is handed to the rank its position selects |
| StartUp.Distinct | nemo/startUp.py:374-376 | holds exactly the values of the input, none of them twice |
| StartUp.Sort | nemo/startUp.py:377 | `list.sort()` keeps the length and the values; distinct numbers come out strictly increasing |
| StartUp.FilterSetsSorted | nemo/startUp.py:369-377 | `filterSets` is sorted, has no repeats, and holds exactly the numbers some filter lists |
| StartUp.CollectSetNumbers | nemo/startUp.py:372-376 | the loops collect the set numbers, raising on malformed entries |
| StartUp.AppendNewNumbers | nemo/startUp.py:374-376 | the inner loop leaves exactly the distinct numbers seen so far, in first-seen order |
| StartUp.DistinctSnoc | nemo/startUp.py:375-376 | a number is appended to the distinct values only when it has not been seen |
| StartUp.SetNumbersErrExtends | nemo/startUp.py:372-376 | an error on a prefix of the filters is the error of the whole loop |
| StartUp.IdentifyFilterSets | nemo/startUp.py:364-383 | computes the sorted set numbers and the set labels (None when absent) |
| StartUp.Overridden | nemo/startUp.py:645-649 | the permitted keys the options give override; every other key is kept; no other key is added |
| StartUp.Catalogs | nemo/startUp.py:660-662 | one catalogue per listed set |
| StartUp.CollectCatalogs | nemo/startUp.py:660-662 | the loop computes those catalogues |
| StartUp.CatalogsErrExtends | nemo/startUp.py:660-662 | an error on a prefix is the error of the whole loop |
| StartUp.SavesOff | nemo/startUp.py:665-668 | every save switch present is turned off; nothing else changes |
| StartUp.ActivateFilter | nemo/startUp.py:656-668 | only the parameters change; `mapToUse` is copied in; save switches are off for all but the last set; otherwise the filter is unchanged |
| StartUp.ActiveIndices | nemo/startUp.py:654-655 | increasing indices of filters whose sets contain `setNum` |
| StartUp.ActivatedFilters | nemo/startUp.py:652-671 | exactly the filters of the set are kept, in order, each rewritten only in its parameters, with saves off for all but the last set |
| StartUp.ActivateFilters | nemo/startUp.py:654-671 | the loop computes the activated filters |
| StartUp.ActivatedErrExtends | nemo/startUp.py:654-671 | an error on a prefix is the error of the whole loop |
| StartUp.MapOptions | nemo/startUp.py:682-687 | each map takes the subtraction-mask keys from the options; an `ignoreSurveyMask` equal to `True` in Python's sense (`True`, 1 or 1.0) drops the survey mask, and any other value leaves it as it was |
| StartUp.SetOptionsKeys | nemo/startUp.py:629-640 | the options of a set end up holding the five defaulted keys |
| StartUp.ActivationOf | nemo/startUp.py:628-671 | on success the options hold the map-level keys |
| StartUp.ActivatedParDict | nemo/startUp.py:665-671 | the activated filters replace `mapFilters`; forced photometry is off for all but the last set |
| StartUp.SetOptionsStable | nemo/startUp.py:629-640 | defaults once filled in stay put |
| StartUp.FilterSetRepeatable | nemo/startUp.py:621-687 | calling `setFilterSet` again with the same set gives the same state |
| StartUp.ActivationRepeatable | nemo/startUp.py:626-671 | the parameter rewriting does not accumulate across calls |
| StartUp.FilterSetOnlyOverrides | nemo/startUp.py:645-671 | outside `mapFilters` and `forcedPhotometryCatalog`, the parameters differ from the original only in the four permitted keys |
| StartUp.ComputeFilterSet | nemo/startUp.py:628-687 | computes the parameters, maps and options `setFilterSet` gives |
| StartUp.ActivateFilterSet | nemo/startUp.py:628-671 | the loops compute the parameter rewriting |
| StartUp.UpdateMaps | nemo/startUp.py:673-687 | the loops compute the map-level rewriting |
| StartUp.CommandLineOverrides | nemo/startUp.py:252-256 | each switch set to true turns its key on; every other key is kept and none is added |
| StartUp.TileSelection | nemo/startUp.py:312-319 | only tiles of the maps; with `tileNameList` a non-empty selection of listed tiles; without it every map tile |
| StartUp.SetUpDividesTiles | nemo/startUp.py:312-349 | with division, each process keeps every `size`-th selected tile from its rank, and all tiles are handed out |
| StartUp.SetUpSingleProcess | nemo/startUp.py:252-349 | without division every selected tile is worked on and the overrides are in place |
| StartUp.NemoConfig.constructor | nemo/startUp.py:243-358 | records the set-up state with the copies `restoreConfig` returns to |
| StartUp.NemoConfig.RestoreConfig | nemo/startUp.py:612-618 | back to the parameters and maps of the configuration file |
| StartUp.NemoConfig.SetFilterSet | nemo/startUp.py:621-687 | on success the parameters, maps and options are computed from the original configuration, whatever earlier calls did |
| StartUp.NewNemoConfig | nemo/startUp.py:243-358 | succeeds exactly when the set-up does, raising its exception otherwise (MPI with one process, no `outputDir` with a configuration name lacking ".yml" while directories are to be made, `tileNameList` problems, filter-set problems); a new config records its parameters, tiles, filter sets and maps |
| StartUp.ComputeSetUp | nemo/startUp.py:252-358 | computes the set-up outcome, the output-directory check included |
| StartUp.DictConfigNeedsOutputDir | nemo/startUp.py:286-290 | a dictionary configuration (no file name) without `outputDir` is refused when directories are to be made; with `outputDir` the file name and the switch make no difference |
| StartUp.SelectTileNames | nemo/startUp.py:312-319 | the loop computes the tile selection |
| Maps.ConvertToY | nemo/maps.py:37-44 | one value per pixel; DeltaTOfY and YOfDeltaT state that it inverts ConvertToDeltaT |
| Maps.ConvertToDeltaT | nemo/maps.py:47-54 | one value per pixel; DeltaTOfY and YOfDeltaT state that it inverts ConvertToY |
| Maps.DeltaTOfY | nemo/maps.py:37-54 | converting to y and back gives the map again |
| Maps.YOfDeltaT | nemo/maps.py:37-54 | converting to micro-Kelvin and back gives the y map again |
| Maps.JyDivisor | nemo/maps.py:679-686 | a divisor exists exactly at 148 and 219 GHz, and it is positive; any other frequency raises |
| Maps.ToMicroK | nemo/maps.py:679-686 | units other than Jy/sr pass through unchanged; Jy/sr succeeds exactly at 148 and 219 GHz, keeping the pixel count |
| Maps.ToMicroKKeepsSign | nemo/maps.py:679-686 | the rescaling keeps every pixel's sign |
| Maps.ZeroUnweighted | nemo/maps.py:702 | pixels of zero weight become 0; others are unchanged |
| Maps.ZeroRow | nemo/maps.py:702 | one row of that step |
| Maps.PrepareArrays | nemo/maps.py:689-716 | default weights of one, unweighted pixels zeroed, default masks, and the two shape checks |
| Maps.ColumnOf | nemo/maps.py:1209-1211 | the column of every object, in order; a missing column raises |
| Maps.CollectColumn | nemo/maps.py:1209-1211 | the loop computes the column |
| Maps.MaskedRatio | nemo/maps.py:1241-1243 | one ratio per bin |
| Maps.MaskedRatioBounds | nemo/maps.py:1241-1243 | ratios are non-negative and zero exactly where there are no inverted detections or no candidates |
| Maps.ContaminationTableCounts | nemo/maps.py:1223-1250 | row i's S/N is edge i and its cumulative columns count real and inverted detections at or above it |
| Maps.TableKeyInjective | nemo/maps.py:1257 | different S/N keys under one label never share a table key |
| Maps.ContaminationKeys | nemo/maps.py:1204-1259 | a table for every S/N key, under its label-prefixed key, and no other table |
| Maps.ContaminationTables | nemo/maps.py:1204-1259 | each key's table is built from that key's columns |
| Maps.EstimateContamination | nemo/maps.py:1204-1259 | the loop computes the tables |
| Maps.TableFor | nemo/maps.py:1209-1250 | histogram, suffix sums and masked ratio for one key |
| Maps.ContaminationErrExtends | nemo/maps.py:1205-1257 | an error on a prefix of the keys is the error of the whole loop |
| Maps.LastSlash | nemo/maps.py:198 | the position of the last '/', or -1 when there is none |
| Maps.RStripSlashes | nemo/maps.py:198 | `rstrip('/')` removes only trailing slashes and leaves none |
| Maps.SplitPath | nemo/maps.py:198 | `os.path.split`: the base name has no '/', the directory part is a prefix and the base name a suffix, with only slashes between them |
| Maps.SplitJoin | nemo/maps.py:198 | splitting `dir/name` gives back `dir` and `name` when `dir` does not end in '/' and `name` has no '/' |
| Maps.TileDeckSameDirectory | nemo/maps.py:196-203 | the output file is in the input file's directory, named with the prefix (except directly under '/') |
| Maps.StripLastNotSlash | nemo/maps.py:198 | the directory part never ends in '/' unless it is all slashes |
| Maps.DeckFilesOf | nemo/maps.py:195-204 | one input name, output name and map type per contributed file, at most one per key |
| Maps.DeckFilesSound | nemo/maps.py:195-204 | every file a map contributes is one of the keys, present and not None, with the file it names and that file's tile-deck output name |
| Maps.DeckFilesComplete | nemo/maps.py:195-204 | no key for which the map holds a file is missed |
| Maps.TileDeckFiles | nemo/maps.py:191-204 | the loop computes the input and output file names |
| Maps.Find | nemo/maps.py:1562 | the first occurrence at or after a position, or the end |
| Maps.Before | nemo/maps.py:1562 | `split(sep)[0]` is a prefix of the text (LabelOfColumn states which one) |
| Maps.LabelOfColumn | nemo/maps.py:1521-1562 | reading a label back from its column name gives the label |
| Maps.LabelsOf | nemo/maps.py:1559-1564 | distinct labels, exactly the prefixes before `_rArcmin` of the column names other than `fixed_SNR` |
| Maps.PlotLabels | nemo/maps.py:1559-1567 | a given list replaces the labels; otherwise the labels found in the column names |
| Maps.BinOffsets | nemo/maps.py:1517-1518 | never more offsets than objects; BinOffsetsCount states which |
| Maps.BinOffsetsCount | nemo/maps.py:1517-1518 | one offset per object in the bin |
| Maps.BinsDisjoint | nemo/maps.py:1516-1518 | with increasing edges no object is in two bins |
| Maps.PercentileValues | nemo/maps.py:1515-1520 | one value per bin |
| Maps.PercentileEmptyBin | nemo/maps.py:1515-1520 | a bin holding no object gets 0; any other bin gets the percentile of its objects' offsets |
| Maps.PercentileLoop | nemo/maps.py:1515-1520 | the loop computes the percentile column |
| Photometry.MakeAnnulus | nemo/photometry.py:376-386 | an error exactly when the rounded outer radius R is negative; otherwise a 2R by 2R grid (AnnulusCells states its cells) |
| Photometry.AnnulusCells | nemo/photometry.py:378-383 | every cell is 0 or 1, and is 1 exactly between the radii |
| Photometry.AnnulusCentre | nemo/photometry.py:378-383 | the centre is included exactly when the rounded inner radius is negative |
| Photometry.AnnulusEmptyWhenInnerTooLarge | nemo/photometry.py:382-383 | an inner radius at or beyond the outer one leaves the grid empty |
| Photometry.AnnulusSymmetric | nemo/photometry.py:379-383 | the annulus is symmetric under reflection through its centre |
| Photometry.SigPix | nemo/photometry.py:77-81 | one value per pixel, in the map's shape; SigPixStrict states which pixels are 1 |
| Photometry.SigPixStrict | nemo/photometry.py:77-81 | a pixel is significant exactly when its (inverted) value exceeds the threshold; raising the threshold never adds pixels |
| Photometry.PositivePixels | nemo/photometry.py:112-115 | exactly the positions of positive mask pixels |
| Photometry.BorderWindow | nemo/photometry.py:44-124 | without a mask of positive sum, the whole map shrunk by the border on each side, a `rejectBorder` of None counting as 0 (lines 44-45 and 111-124); WindowIsBoundingBox states the masked case |
| Photometry.PositiveSomewhere | nemo/photometry.py:111 | a mask with positive sum has a positive pixel |
| Photometry.WindowIsBoundingBox | nemo/photometry.py:111-120 | every positive mask pixel lies in the unshrunk window |
| Photometry.WiderBorderStricter | nemo/photometry.py:121-124 | a wider border never lets more objects in |
| Photometry.WrapRA | nemo/photometry.py:136-137 | the RA is kept or raised by 360, and an RA in [-360, 360) ends in [0, 360) |
| Photometry.PsMaskedAsWritten | nemo/photometry.py:153-155 | as written, a mask of more than one pixel raises |
| Photometry.PsMasked | nemo/photometry.py:153-155 | without a mask nothing is masked; with one, an answer means the rounded position is inside the mask and the answer is whether that pixel is positive |
| Photometry.PsMaskFinding | nemo/photometry.py:153 | a 2-by-1 mask makes the as-written test raise where the intended one answers |
| Photometry.CatalogueContents | nemo/photometry.py:127-158 | entries numbered 1, 2, ... in order, from regions above `minObjPix` inside the window, with the template key, wrapped RA and S/N; without a mask exactly the passing regions |
| Photometry.FindObjects | nemo/photometry.py:127-158 | the loop with its running `idNumCount` computes the catalogue; its point-source test is the corrected `PsMasked` (`psMaskMap is not None`), not `PsMaskedAsWritten` |
| Photometry.CatalogueErrExtends | nemo/photometry.py:129-158 | an error on a prefix of the regions is the error of the whole walk |
| Photometry.FirstField | nemo/photometry.py:190 | `split('#')[0]`: a prefix without '#', ending at the first '#' |
| Photometry.LastField | nemo/photometry.py:190 | `split('#')[-1]`: a suffix without '#', starting after the last '#' |
| Photometry.LastMatch | nemo/photometry.py:188-191 | the last matching key, or -1 when none matches |
| Photometry.FindTemplateKey | nemo/photometry.py:184-193 | the last match wins; no match raises |
| Photometry.TemplateKeyFound | nemo/photometry.py:188-193 | with `t` free of '#' and the key `t#ext` present, the search succeeds with a key matching `t` and the extension |
| Photometry.ObjectSNRCases | nemo/photometry.py:217-227 | positions outside the map give 0; inside, the rounded pixel or the interpolator |
| Photometry.CheckSNMapKind | nemo/photometry.py:195-203 | only 'file' and 'array' pass |
| Photometry.GetSNValues | nemo/photometry.py:180-227 | a missing template key, an unknown map kind or a missing map raises; otherwise it succeeds, every object gets `prefix + "SNR"` read at its position, and nothing else changes |
| Photometry.FluxColumns | nemo/photometry.py:306-326 | Y500 and Jy/beam are unsupported; `yc` and `uK` need the SNR column; other units change nothing; no column is removed and only the four flux columns change |
| Photometry.PrefixedDistinct | nemo/photometry.py:309-312 | distinct suffixes give distinct column names |
| Photometry.YcColumns | nemo/photometry.py:306-312 | `y_c` is the map value in 1e-4, `deltaT_c` converts back to it, and the errors agree with the S/N |
| Photometry.MicroKColumns | nemo/photometry.py:317-321 | `deltaT_c` is the map value and its error is `deltaT_c / SNR` |
| Photometry.FluxSources | nemo/photometry.py:277-292 | the map itself with prefix "", then the fixed-scale map with "fixed_" when `photFilter` is set |
| Photometry.MeasuredKeepsObjects | nemo/photometry.py:294-326 | objects, order, ids, positions and templates are kept; only this map's objects change; no column is removed |
| Photometry.SourcesKeepColumns | nemo/photometry.py:298-326 | measuring one object adds columns and removes none |
| Photometry.OtherUnitsNoChange | nemo/photometry.py:306-326 | units other than the four named ones leave every object unchanged |
| Photometry.OtherUnitsSources | nemo/photometry.py:298-326 | over all sources, such units leave the object unchanged |
| Photometry.MeasureFluxes | nemo/photometry.py:294-326 | the loop over objects computes the measured catalogue |
| Photometry.MeasureObject | nemo/photometry.py:298-326 | the loop over the maps computes one object's columns |
| Photometry.MeasuredErrExtends | nemo/photometry.py:294-326 | an error on a prefix of the objects is the error of the whole loop |
| Photometry.SourcesErrExtends | nemo/photometry.py:298-326 | an error on a prefix of the maps is the error for the object |
| SimsTools.Word | nemo/simsTools.py:45 | the longest prefix without whitespace |
| SimsTools.Fields | nemo/simsTools.py:45 | `split()`: non-empty fields without whitespace; FieldsOfJoined states the round trip |
| SimsTools.FieldsOfJoined | nemo/simsTools.py:45 | splitting space-joined words gives back the words |
| SimsTools.FieldValue | nemo/simsTools.py:48-54 | a missing field raises; otherwise it succeeds exactly when `float()` does |
| SimsTools.ParseLineRoundTrip | nemo/simsTools.py:44-54 | a line of six numbers parses to an object with those numbers in catalogue order |
| SimsTools.SimCatalogueIds | nemo/simsTools.py:41-56 | ids strictly increase within 1 to the record count; when all objects are inside the map they are 1, 2, ... with one per record |
| SimsTools.ParseInputSimCatalog | nemo/simsTools.py:40-56 | the loop with its running `idNum` computes the catalogue |
| SimsTools.SimCatalogueErrExtends | nemo/simsTools.py:42-56 | an error on a prefix of the lines is the error of the whole loop |
| SimsTools.FirstMin | nemo/simsTools.py:923-924 | the first position of the minimum |
| SimsTools.Separations | nemo/simsTools.py:922 | one separation per secondary object |
| SimsTools.SimpleMatch | nemo/simsTools.py:903-929 | an error exactly when there are primary objects but no secondary ones; otherwise one recovery per primary object |
| SimsTools.RecoveredIffClose | nemo/simsTools.py:918-929 | recovered exactly when some secondary object is within the radius, matched to the first nearest |
| SimsTools.SimpleCatalogMatch | nemo/simsTools.py:918-929 | the loop computes the recoveries |
| SimsTools.PositionsOf | nemo/simsTools.py:72-78 | the positions of the simulated objects, in order |
| SimsTools.SimMatches | nemo/simsTools.py:64-105 | an error exactly when there are detections but no simulated objects; otherwise one match per detection |
| SimsTools.SimMatchContents | nemo/simsTools.py:80-105 | a detection within the radius takes Mvir, z and RvirMpc of the first nearest object and its flux when present; otherwise all None |
| SimsTools.MatchAgainstSimCatalog | nemo/simsTools.py:80-105 | the loop computes the matches |
| SimsTools.ContaminationRatio | nemo/simsTools.py:1014-1015 | infinite exactly when there are inverted detections but no candidates; otherwise non-negative, zero exactly without inverted detections, and at most 1 when they do not outnumber the candidates |
| SimsTools.ContaminationOf | nemo/simsTools.py:1014-1015 | four columns of one value per bin; ContaminationRows states their contents |
| Binning.SuffixSumsNonNeg | nemo/simsTools.py:980-986 | suffix sums of counts are non-negative |
| SimsTools.EstimateFromSums | nemo/simsTools.py:1014-1015 | four columns of one value per bin |
| SimsTools.ContaminationRows | nemo/simsTools.py:975-1015 | row i counts detections at or above edge i, counts never grow, and the ratio is infinite exactly with inverted detections but no candidates |
| SimsTools.EstimateContamination | nemo/simsTools.py:977-1015 | the loop computes the estimate |
| SimsTools.ApertureFluxes | nemo/simsTools.py:350-369 | a missing z range is an error exactly when the catalogue is non-empty; otherwise one object per input object |
| SimsTools.ApertureFluxOnlyPassing | nemo/simsTools.py:359-369 | only objects strictly inside the z range and above the flux limit get the flux; others are unchanged |
| SimsTools.GetInputSimApertureFluxes | nemo/simsTools.py:351-369 | the loop computes the measured catalogue |
| SimsTools.RecoveredHitsBounded | nemo/simsTools.py:628-634 | recovered counts never exceed totals, per column |
| SimsTools.HitsAddUp | nemo/simsTools.py:628-632 | when every value is listed, a run's totals add up to the number of sources |
| SimsTools.RecoveryTally.constructor | nemo/simsTools.py:519-525 | zeroed run-by-value counters for the listed values |
| SimsTools.RecoveryTally.Record | nemo/simsTools.py:630-634 | the value's column total rises by one, and its recovered count too when recovered; an unlisted value raises |
| SimsTools.RecordRun | nemo/simsTools.py:628-634 | each tally's run row grows by exactly that run's hits, recovered never exceeds total, and an error is raised exactly when some value is unlisted |

## Left out

- Input and output are not modelled: FITS and YAML files, pickles, directory
  creation, DS9 regions, plots and progress printing. Loaded data and file
  change times are inputs.
- The MPI communicator is not modelled. Rank and size are inputs, and the
  excepthook set-up is left out.
- Routines defined outside these files are parameters. This covers the hmf
  mass function, astropy volumes, splines (`splrep`/`splev`,
  `RectBivariateSpline`), `norm.sf`, `np.percentile`, `signals.fSZ` and
  `TCMB`. It also covers WCS `pix2wcs`/`wcs2pix`/`coordsAreInImage`,
  `calcAngSepDeg`, `float()`, `objectFluxInAperture`, `y0FromLogM500`,
  `calcM500Fromy0`, and the selection-function tools `getTileTotalAreaDeg2`,
  `calcTileWeightedAverageNoise`, `calcCompleteness` and
  `makeMzCompletenessGrid`.
- `ndimage.label`, `maximum_position`/`center_of_mass` and `ndimage.sum` are
  replaced by a list of regions given as input. The segmentation itself is not
  modelled.
- Random draws are inputs. Floating-point rounding, NaN and infinity are not
  modelled: values are reals.
- `MockSurvey.getPLog10M` is left out: it is only calls to the mass function
  and `np.trapz`.
- The selection function MockSurvey reads (`ycLimitTab`, `tckQFit`,
  `ycLimit_surveyAverage`) is given as plain inputs.
- MockSurvey.MockSurvey.constructor: the ValueError of an empty truncation
  (`pM[:0].max()`), the TypeError `splrep` raises when a row leaves three
  points or fewer to its cubic fit, the failed spline fit of a zero total, and
  the `IPython.embed()` / `sys.exit()` after a NaN spline become a `Failed`
  sampler state, because a Dafny constructor cannot fail. Of `splrep`'s input
  checks only the point count is modelled: the points it is given are in
  non-decreasing order for non-negative counts.
  `MockSurvey.NewMockSurvey` and `SelFn.NewSelFn` report these as errors.
- MockSurvey.MockSurvey.DrawSample: a survey-averaged noise that is not
  positive (an empty `ycLimit_surveyAverage`, or one whose sum is not
  positive) is an error before any trial. The source computes NaN or
  infinite columns instead. It raises only for a negative noise, inside
  `np.random.normal`, and only once a trial is accepted. Reals have no NaN.
- The output directory names (`rootOutDir`, `filteredMapsDir`,
  `diagnosticsDir`, `selFnDir`) and their creation are not modelled. Only
  the `.yml` check that can raise is.
- SelFn.SelFn.constructor: requires a positive total area. With a zero
  total the fiducial MockSurvey expects no clusters, and the source fails in
  its sampler set-up on the zero total before any area fraction is taken;
  `SelFn.NewSelFn` returns that error without constructing.
- Maps.ConvertToY: requires `fx != 0`, which `fSZ` gives at the frequencies
  used.
- `np.linspace` bin edges are inputs for the contamination estimates: the
  count `(binMax-binMin)/binStep+1` is a float.
- Catalogue S/N sorting is left out: histograms do not depend on order.
- Maps.PrepareArrays: requires the weight and data arrays to be distinct
  objects.
- `preprocessMapDict` steps after loading are not modelled:
  `RADecSection` clipping, CMB seeds, source injection, beam convolution,
  `maskPointSourcesFromCatalog`, background subtraction.
- Maps.TileDeckFiles: the `%.1f` overlap label is an input, and only the
  naming in the tiling branch of `makeTileDeck` is modelled.
- The names and galactic coordinates of objects (`makeACTName`,
  `convertCoords`) are not computed.
- Photometry.FindObjects: the outer loop over map keys is modelled per key.
- Photometry.FindObjects: the `type(objNumPix) != float` guard is not modelled.
- Photometry.FindObjects: Python's negative-index wrap-around is treated as
  PixelOutOfRange.
- Photometry.FluxColumns: error columns are not written for a zero S/N, where
  numpy gives inf or NaN.
- Photometry.FluxColumns: the `Y500` and `Jy/beam` branches stop the program;
  they are modelled as UnsupportedUnits.
- SimsTools.GetInputSimApertureFluxes: the pickle cache and the Jy/sr
  conversion are left out.
- `fakeSourceSims` map insertion, fractions, means and plots are left out,
  and so are the `insertBetaModelIntoMap`, `insertArnaudModelIntoMap` and
  `insertProjectedNFWModelIntoMap` profiles.
- SimsTools.RecordRun: the counters are integers rather than float arrays.
- SimsTools.RecordRun: the state after an unlisted value is left unspecified.
- The lists of input and recovered fluxes that `fakeSourceSims` appends to
  for recovered sources are left out; they only feed plots.
- SimsTools.MatchAgainstSimCatalog: the crossmatch radius is a parameter.
  `catalogTools.XMATCH_RADIUS_DEG` is not part of this model.
- StartUp.Upper: ASCII letters only; no Unicode case mapping.
- StartUp.IdentifyFilterSets: filter set numbers are integers only, and
  `filterSetOptions` must be a dictionary keyed by numbers.
- StartUp.UpperNames: `tileNameList` must be a list.
- StartUp.MergeFilter: Python's cross-type equality (`1 == 1.0`) is not
  modelled, and the exception types raised are not distinguished.
- StartUp.NemoConfig.SetFilterSet: the state after an exception is
  unspecified; the source leaves partial edits.

## Findings

| source | as written | input that shows it | evidently intended | confidence | as-written member | corrected member |
|---|---|---|---|---|---|---|
| nemo/photometry.py:153 | `if psMaskMap != None:` compares an array with None element by element; `if` on the resulting array of more than one element raises ValueError | a point-source mask of shape 2 by 1 and an object inside the window | `psMaskMap is not None`, then test the pixel at the object | not executed (depends on the numpy version: old versions compared the whole object) | Photometry.PsMaskedAsWritten | Photometry.PsMasked |
