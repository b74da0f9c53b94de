# NorMITs Demand: EDGE rail growth and supporting utilities, in Dafny

This project models the core of the NorMITs Demand rail forecasting code and
proves properties of that model.

**EDGE growth run** (`run_edge_growth`). For each time period (AM, IP, PM,
OP) and each demand segment:

- the zone-to-zone demand matrix is spread over station pairs, using the
  iRSj probabilities;
- each movement gets its TLC codes, its EDGE flow category, a TAG flow
  (banded by distance) and a journey purpose;
- the demand is split into Full, Reduced and Season tickets;
- missing growth factors are borrowed from another ticket type of the same
  movement, and the substitutions and unfactored demand are recorded in two
  audit tables;
- one of two growth methods is applied, and the result is summed back to
  zone pairs.

After the loops, the share of demand with no factor is gated at 1%. Below the
gate, the four periods are summed into 24-hour matrices, and these are
combined into the NoRMS segments: from-home and transposed to-home matrices
are averaged, and every matrix is expanded onto the full 1300-zone grid.

**Supporting cores:**

- zone translation of numpy matrices and vectors, and the argument checks of
  the pandas matrix translation;
- path-string helpers: suffixes, filename matching, the search for an
  alternative extension, and the latest modification time;
- the time-period split of 24-hour PA matrices, and the to-home OD
  construction;
- the elasticity filter chain and the selection of constraint-matrix CSV
  files;
- the purpose, user-class and NoRMS segment tables.

**How the source is represented:**

- Tables are sequences of records, and demand is an exact `real`.
- A missing cell (NaN) is `None`.
- A left merge pairs each left row with every matching right row, in the
  right table's order.
- A group-by sum is a sequence of distinct keys with their totals.
- The filesystem is an abstract set of existing paths.
- Code that changes state is modelled as methods, with loops and classes
  over the frames it writes in place. Most methods are proved equal to a
  specification function, and the properties are proved about those
  functions. A few small loops (FileOps.LatestModifiedTime,
  FileOps.FilenameInList) state their result directly instead.
- A `nd.PathLike` argument is either a string or a `pathlib.Path`; the two
  never compare equal.

Files:

- `wrappers.dfy`: the Option and Result types.
- `frames.dfy`: the pandas merge, group-by and outer-sum semantics used
  throughout.
- `real_sums.dfy`: finite sums.
- `constants.dfy`, `file_ops.dfy`, `translation.dfy`, `pa_to_od.dfy`,
  `elasticity.dfy`: the supporting cores.
- `edge_stations.dfy`, `edge_classify.dfy`, `edge_factors.dfy`,
  `edge_growth.dfy`, `edge_combine.dfy`, `edge_run.dfy`: the EDGE pipeline,
  step by step.

## Model

| member | source | states |
|---|---|---|
| Constants.TripOriginPurposes | normits_demand/constants.py:121-127 | there is a purpose list exactly for the trip origins "hb" and "nhb", and every purpose in it is in ALL_P |
| Constants.TripOriginsPartitionPurposes | normits_demand/constants.py:114-127 | home-based and non-home-based purposes are disjoint, and ALL_P is exactly their union |
| Constants.SocAndNsPartitionPurposes | normits_demand/constants.py:114-119 | SOC_P and NS_P are disjoint and together are ALL_P |
| Constants.UserClassesPartitionPurposes | normits_demand/constants.py:134-138 | the user classes are commute, business and other; every purpose is in exactly one of them, and only purposes are |
| Constants.HbUserClassesAreRestriction | normits_demand/constants.py:134-144 | the home-based user-class table has the same classes, each being its user class restricted to ALL_HB_P |
| Constants.HbUserClassesPartitionHbPurposes | normits_demand/constants.py:140-144 | every home-based purpose is in exactly one home-based user class |
| Constants.VdmSegmentsPartition | normits_demand/constants.py:55-105 | every VDM matrix is in exactly one of the internal and external aggregation tables; the matrix-name list holds each matrix exactly once |
| Constants.VdmKeySuffixes | normits_demand/constants.py:52-103 | internal matrices' keys end in `_int`, external ones' keys in `_ext` |
| Constants.VdmAggregationsWellFormed | normits_demand/constants.py:77-131 | internal aggregations use one trip origin and external ones both; every car-availability value is valid and every user class is known |
| Constants.PostmeNameCounts | normits_demand/constants.py:55-73 | a matrix is written under two post-ME names exactly when it is a car-available external matrix; every other matrix has one name; O_NCA_ext's single name is ONCA_Ext_TO |
| FileOps.FileExists | normits_demand/utils/file_ops.py:79-102 | False exactly when nothing exists at the path; a not-a-file error exactly when something exists that is not a file; True exactly when a file exists |
| FileOps.IsCsvIff | normits_demand/utils/file_ops.py:154-176 | is_csv holds exactly when the text after the last '.' (the whole text when there is none), lower-cased, is "csv" |
| FileOps.StripAll | normits_demand/utils/file_ops.py:66-74 | the stripped name has no suffix and is a prefix of the name |
| FileOps.StripAllIdempotent | normits_demand/utils/file_ops.py:66-74 | stripping the suffixes a second time removes nothing more |
| FileOps.RemoveSuffixes | normits_demand/utils/file_ops.py:49-76 | the loop's result keeps the parent and has as its name the name with every suffix stripped; that name has no suffix and is a prefix of the old one; a name that strips to nothing leaves the parent |
| FileOps.RemoveSuffixesExample | normits_demand/utils/file_ops.py:49-76 | `data/a.csv.bz2` becomes `data/a` |
| FileOps.MaybeAddSuffix | normits_demand/utils/file_ops.py:179-216 | with overwrite, the parent and stem are kept and the suffix becomes the new one; without overwrite, a path with a suffix is unchanged, and one without gets the new suffix |
| FileOps.AsWrittenMaybeAddSuffix | normits_demand/utils/file_ops.py:204-216 | as written: without overwrite it agrees with the documented behaviour; with overwrite, when the stem still has a suffix, the result is the path with its last suffix removed and the new one never added |
| FileOps.AsWrittenMaybeAddSuffixDropsSuffix | normits_demand/utils/file_ops.py:204-216 | as written, overwriting `a.tar.gz` with ".csv" gives `a.tar`: the new suffix is never added |
| FileOps.MaybeAddSuffixAgreesOnOneSuffix | normits_demand/utils/file_ops.py:204-216 | as written and as documented agree whenever the stem has no suffix of its own |
| FileOps.Dotted | normits_demand/utils/file_ops.py:442-448 | a normalised file type starts with '.', and is either the given type or the given type with '.' prepended |
| FileOps.WithSuffix | normits_demand/utils/file_ops.py:455-462 | `with_suffix` rejects a suffix holding '/', not starting with '.', or equal to "."; it rejects an empty name; otherwise it keeps the parent and stem and puts the given suffix last |
| FileOps.NormaliseAltTypes | normits_demand/utils/file_ops.py:442-448 | the loop dots every alternative type, in order |
| FileOps.SearchAlternatives | normits_demand/utils/file_ops.py:455-468 | the loop over the alternative types equals the search specification |
| FileOps.SearchFound | normits_demand/utils/file_ops.py:455-462 | a found path is `base.with_suffix(t)` for the first type t whose candidate exists; every earlier candidate was valid and absent |
| FileOps.SearchNotFound | normits_demand/utils/file_ops.py:455-468 | FileNotFoundError exactly when every candidate is valid and absent; the error lists every attempted path, in order |
| FileOps.FindFilename | normits_demand/utils/file_ops.py:396-468 | find_filename: the path as given, if it has a suffix and exists; otherwise the search over the dotted types, with some order of PD_COMPRESSION after the defaults when no types are given; the full path or the name only |
| FileOps.FilenameInList | normits_demand/utils/file_ops.py:354-393 | without ignore_ftype, membership of the raw value (a string never equals a path, and strings compare character by character); with it, true exactly when some item, parsed as a path, equals the parsed filename once one suffix is removed from each |
| FileOps.StrNameAsPath | normits_demand/utils/file_ops.py:382-383 | `pathlib.Path` of a string without '/' is the one-part path of that name, or the empty path for "" and "." |
| FileOps.StrAndPathDiffer | normits_demand/utils/file_ops.py:378-383 | "a.csv" and `Path("a.csv")` are different list items but the same path; "./a.csv" and "a.csv" are different strings but the same path |
| FileOps.RemoveFromFname | normits_demand/utils/file_ops.py:610-635 | every occurrence of to_remove is deleted from the stem only; the parent and the suffix are kept |
| FileOps.AddToFnameShape | normits_demand/utils/file_ops.py:638-663 | to_add is appended to the stem, and the parent and the suffix are kept |
| FileOps.AddThenRemove | normits_demand/utils/file_ops.py:610-663 | removing text just added restores the path, when that text does not occur earlier in the name |
| FileOps.LatestModifiedTime | normits_demand/utils/file_ops.py:923-947 | the result is at least -1.0 and at least every time; it is -1.0 or one of the times (so -1.0 for no paths) |
| Elasticity.KeepWhere | elasticity_calcs/utils.py:106 | the rows kept are exactly the input rows whose column holds the value (a missing cell never matches) |
| Elasticity.RowsWhere | elasticity_calcs/utils.py:99-106 | reference definition: the rows kept are exactly the input rows that pass every filter |
| Elasticity.NarrowThenRest | elasticity_calcs/utils.py:99-106 | narrowing by an active filter and then by the rest gives the rows that pass them all |
| Elasticity.OffFilter | elasticity_calcs/utils.py:104-105 | a filter whose value is None removes nothing |
| Elasticity.FilterChainSpec | elasticity_calcs/utils.py:99-110 | the chain fails exactly when some filter is active and no row passes all of them; the error names an active filter's column and value; on success the result is exactly the rows passing every filter, in input order |
| Elasticity.RowsWhereAll | elasticity_calcs/utils.py:93-110 | with every filter None, every input row is returned |
| Elasticity.ReadElasticityFile | elasticity_calcs/utils.py:49-110 | the filter loop over ElasticityType, Purp and MarketShare, in that order, equals the filter chain |
| Elasticity.LowerAll | elasticity_calcs/utils.py:141 | the requested names are lower-cased one by one |
| Elasticity.CollectedKeys | elasticity_calcs/utils.py:143-150 | a dictionary filled in a loop has a key exactly when some selected item gives it |
| Elasticity.CollectedLastWins | elasticity_calcs/utils.py:143-150 | each key holds what the last selected item with that key made |
| Elasticity.ConstraintMatricesSpec | elasticity_calcs/utils.py:141-151 | a key is present exactly when some entry has a ".csv" suffix in any case, that key is its lower-cased stem, and (with get_files) the key is requested; the value is the last such entry's absolute path, or its loaded matrix |
| Elasticity.GetConstraintMatrices | elasticity_calcs/utils.py:113-151 | a FileNotFoundError when the folder is not a directory; otherwise the dictionary above |
| Translation.Translate | normits_demand/utils/translation.py:140-156 | the two broadcast steps give a rectangular result, n_out×n_out whenever the matrix has columns |
| Translation.TranslateIsBilinear | normits_demand/utils/translation.py:140-156 | the two broadcast-multiply-sum steps give an n_out×n_out result whose cell (a, b) is Σ_i Σ_j m[i][j]·T[i][a]·T[j][b] |
| Translation.RowStepKeepsTotal | normits_demand/utils/translation.py:143-149 | one step keeps the total when every row of T sums to 1 |
| Translation.TranslateKeepsTotal | normits_demand/utils/translation.py:140-169 | the translation keeps the matrix total when every row of T sums to 1 |
| Translation.MatrixZoneTranslation | normits_demand/utils/translation.py:28-171 | ValueError exactly when (with check_shapes) the matrix is not square, or T's rows differ from the matrix's; when both are empty; or (with check_totals) when the totals differ. Otherwise the result is n_out×n_out with the bilinear cells |
| Translation.MatrixTranslationPassesTotalsCheck | normits_demand/utils/translation.py:158-169 | if every row of T sums to 1, the totals check never raises |
| Translation.Spread1KeepsTotal | normits_demand/utils/translation.py:280-294 | the spread vector keeps the total when T's rows sum to 1 |
| Translation.VectorZoneTranslation | normits_demand/utils/translation.py:174-296 | ValueError exactly for two-dimensional input, a row-count mismatch, empty input or (with check_totals) changed totals; otherwise the result is n_in×n_out with out[i][k] = v[i]·T[i][k], not summed |
| Translation.VectorTranslationPassesTotalsCheck | normits_demand/utils/translation.py:283-294 | if every row of T sums to 1, the vector totals check never raises |
| Translation.SetOfListSize | normits_demand/utils/translation.py:393-403 | a list never has fewer entries than its set, and has exactly as many when it repeats nothing |
| Translation.AsWrittenDuplicateGuardNeverFires | normits_demand/utils/translation.py:393-403 | the guard `len(zones) < len(set(zones))` never fires, though `[1, 1]` repeats a zone |
| Translation.HasDuplicatesIff | normits_demand/utils/translation.py:393-403 | the intended guard fires exactly when some zone is listed twice |
| Translation.ReindexCells | normits_demand/utils/translation.py:449-453 | the reindexed matrix holds the cell labelled (zones[i], zones[j]) when both labels exist, and the infill otherwise |
| Translation.WarningList | normits_demand/utils/translation.py:406-434 | there is a warning of each kind exactly when its count is positive |
| Translation.ZoneWarnings | normits_demand/utils/translation.py:405-434 | a missing-rows warning exactly when some index label is not a from-zone; a missing-cols warning likewise for column labels; a missing-zones warning exactly when some from-zone is absent from the translation |
| Translation.TranslateLabelled | normits_demand/utils/translation.py:436-468 | the result is labelled by to_unique_zones on both axes; each cell is the bilinear sum over the reindexed matrix and the squared translation; the warnings are as above; it fails (numpy on empty arrays) exactly when there are no from-zones |
| Translation.PandasMatrixZoneTranslation | normits_demand/utils/translation.py:299-468 | as written: a ValueError for each dtype mismatch, each exactly when its condition holds; never the duplicate-zone errors, whose guards cannot fire; a ValueError for duplicate axis labels (the reindex) exactly when an axis repeats a label; otherwise the labelled translation |
| Translation.GuardedPandasMatrixZoneTranslation | normits_demand/utils/translation.py:393-403 | with the intended guards: a duplicate from-zone error exactly when the dtypes agree and a from-zone repeats, then a duplicate to-zone error likewise; a success has distinct zone lists; in every other case the as-written result |
| PaToOd.SamePurposeRows | pa_to_od.py:52-61 | the kept rows are exactly the rows whose from-home and to-home purposes agree |
| PaToOd.MaskedIsFilter | pa_to_od.py:52-61 | a mask that is true exactly on the matching rows selects those rows |
| PaToOd.SimplifyTimePeriodSplits | pa_to_od.py:30-69 | without a purpose_to_home column the table comes back unchanged; otherwise the matching-purpose rows, reduced to the four needed columns |
| PaToOd.SimplifiedRows | pa_to_od.py:52-69 | the reduced rows are exactly the projections of the input rows with matching purposes |
| PaToOd.Ratio | pa_to_od.py:136-140 | a zone's split exists exactly when the zone total is non-zero, and then split × total = trips |
| PaToOd.ZeroTotalOnlyZeroTrips | pa_to_od.py:133-140 | with non-negative trips, a zone total is non-negative, and a zone whose total is 0 has only zero trips, so numpy's split there is 0 / 0 (NaN), never an infinity |
| PaToOd.TimeSplits | pa_to_od.py:133-140 | the zone loop gives every row its trips over its zone's total |
| PaToOd.ZoneSplitSumScaled | pa_to_od.py:133-140 | the splits of some rows of a zone add up to their trips over the zone total |
| PaToOd.ZoneSplitsSumToOne | pa_to_od.py:133-140 | the splits of a zone with trips sum to 1 |
| PaToOd.PeriodTrips | pa_to_od.py:147-179 | the group-by gives one row per (zone, other zone, period) cell |
| PaToOd.PeriodTripsKeepsCells | pa_to_od.py:147-179 | a period matrix has exactly the cells of the 24-hour matrix, each once |
| PaToOd.NoSplitNoTrips | pa_to_od.py:152-163 | a zone with no split for a period gets 0 trips in that period |
| PaToOd.BuildTpPaInternal | pa_to_od.py:129-179 | one period matrix per distinct period of the splits, in order, each the 24-hour matrix merged on zone with that period's splits, scaled and grouped |
| PaToOd.ScaledTranspose | pa_to_od.py:419-434 | `m.T * phi_mat` is Cols(m)×Rows(m) |
| PaToOd.ScaleFromHome | pa_to_od.py:413-436 | succeeds exactly when every phi column broadcasts; then one scaled transpose per to-home period |
| PaToOd.ProductTerm | pa_to_od.py:431-434 | each cell of a product is the cell formula's term for (t, f) |
| PaToOd.ProductSum | pa_to_od.py:440-460 | the np.sum over the from-home products equals the to-home cell formula |
| PaToOd.BuildOdInternal | pa_to_od.py:412-460 | succeeds exactly when every broadcast and product is defined; then to-home period t, cell (i, j) is Σ_f phi(f, t)[j] · frh_f[j][i] |
| PaToOd.ToHomeConservesTrips | pa_to_od.py:413-460 | when each from-home period's phi factors sum to 1 over the to-home periods, the to-home trips of a cell, over all periods, equal the transposed from-home trips |
| PaToOd.PurposeSetup | pa_to_od.py:286-305 | a purpose is accepted exactly when it is in ALL_P; non-home-based purposes run unsegmented, home-based ones with the SOC or NS list |
| PaToOd.CaJobs | pa_to_od.py:331-344 | one call per car availability, in order |
| PaToOd.SegmentJobs | pa_to_od.py:330-344 | segments × car availabilities calls, all for the same trip origin, zone, year, purpose and mode |
| PaToOd.PurposeJobs | pa_to_od.py:327-344 | modes × segments × car availabilities calls, each for requested values |
| PaToOd.FirstInvalid | pa_to_od.py:303-305 | no value exactly when every purpose is valid; otherwise a requested purpose outside ALL_P |
| PaToOd.RunPurposesError | pa_to_od.py:285-305 | the purpose loop fails exactly on the first invalid purpose |
| PaToOd.RunYearsError | pa_to_od.py:284-305 | the year loop fails on the first invalid purpose, and only if there is a year |
| PaToOd.BuildTpPaErrors | pa_to_od.py:263-305 | ValueError for a matrix format other than pa/od, before any call; otherwise ValueError on the first invalid purpose (when there is a year); otherwise no error |
| PaToOd.RunPurposesJobs | pa_to_od.py:285-344 | every call of the purpose loop is consistent: its purpose belongs to its trip origin, and nhb calls are unsegmented |
| PaToOd.RunYearsJobs | pa_to_od.py:284-344 | every call of the year loop is consistent |
| PaToOd.BuildTpPaJobs | pa_to_od.py:274-344 | every call uses the format's zone column (p_zone or o_zone) and is consistent |
| PaToOd.RunYear | pa_to_od.py:285-344 | the purpose loop of one year appends the calls of RunPurposes for that year to the run so far, or stops with its first error |
| PaToOd.EfsBuildTpPa | pa_to_od.py:209-345 | the nested loops make exactly the specified calls and end with the specified error |
| EdgeStations.TransposeDemand | normits_demand/models/forecasting/edge_forecast.py:1149-1153 | each row's zones are swapped, and its userclass and demand are kept |
| EdgeStations.TransposeKeepsTotal | normits_demand/models/forecasting/edge_forecast.py:207 | transposing keeps the demand total |
| EdgeStations.PartnersTotal | normits_demand/models/forecasting/edge_forecast.py:137-143 | a zone pair's station rows add up to its demand times its probabilities' total |
| EdgeStations.JoinTotal | normits_demand/models/forecasting/edge_forecast.py:137-157 | the merged, scaled rows with station keys add up to the sum of each pair's demand × probability total |
| EdgeStations.StationDemand | normits_demand/models/forecasting/edge_forecast.py:137-157 | the group-by gives one row per (zone pair, station pair, userclass) |
| EdgeStations.StationDemandTotal | normits_demand/models/forecasting/edge_forecast.py:137-157 | the station matrix total is each zone pair's demand times its probability total; pairs with no probabilities contribute nothing |
| EdgeStations.SplitTotalWhole | normits_demand/models/forecasting/edge_forecast.py:137-157 | when every pair's probabilities sum to 1, the split total is the demand total |
| EdgeStations.StationDemandConserves | normits_demand/models/forecasting/edge_forecast.py:137-239 | station expansion keeps the matrix total when each pair's probabilities sum to 1, for from-home and to-home segments alike |
| EdgeStations.StationKeysFromInputs | normits_demand/models/forecasting/edge_forecast.py:137-157 | every station row belongs to a cell of the (transposed, for to-home) matrix and to a station pair of the probabilities |
| EdgeStations.Prepare | normits_demand/models/forecasting/edge_forecast.py:113-179 | no grouped row with a non-zero origin station is lost by the merges, and every row has a non-zero origin station |
| EdgeStations.AddTlcsRowForRow | normits_demand/models/forecasting/edge_forecast.py:52-110 | with a duplicate-free station lookup, the two merges are row-for-row and add each station's code and name, or nothing |
| EdgeStations.WithDistanceRowForRow | normits_demand/models/forecasting/edge_forecast.py:161-175 | with a duplicate-free cost table, the distance merge is row-for-row and keeps every station pair's demand |
| EdgeClassify.AssignEdgeFlow | normits_demand/models/forecasting/edge_forecast.py:264-295 | the two left merges lose no row, and every output row carries an input row unchanged |
| EdgeClassify.AssignEdgeFlowRowForRow | normits_demand/models/forecasting/edge_forecast.py:264-295 | with duplicate-free lookups, each row gains its TLC pair's flow category and that category's non-distance flow, or nothing |
| EdgeClassify.TagFlow | normits_demand/models/forecasting/edge_forecast.py:354-373 | only "Outside South East" and "Outside South East to/from London" rows with a distance change label, and those always get a banded label |
| EdgeClassify.MovementFrame.AssignPurposes | normits_demand/models/forecasting/edge_forecast.py:298-333 | the blank column and the nine masked writes leave userclass 1-3 "Business", 4-6 "Commuting", 7-9 "Leisure" and every other "" |
| EdgeClassify.MovementFrame.AddDistanceBandTagFlow | normits_demand/models/forecasting/edge_forecast.py:336-375 | the copy and the five masked writes give every row the TAG flow of its non-distance flow and distance, with the bands [0,25), [25,100) and [100,∞) or [0,100) and [100,∞) |
| EdgeClassify.ClassifyRows | normits_demand/models/forecasting/edge_forecast.py:1331-1333 | after the two in-place steps, every row carries its TAG flow and purpose |
| EdgeClassify.Scaled | normits_demand/models/forecasting/edge_forecast.py:396-398 | a share times demand is present exactly when the share is |
| EdgeClassify.MergeShares | normits_demand/models/forecasting/edge_forecast.py:1335-1338 | the left merge with the ticket splits loses no row, and every row has all three shares or none |
| EdgeClassify.ApplyTicketSplits | normits_demand/models/forecasting/edge_forecast.py:378-417 | F, R and S become share × Demand row by row; a missing share stays missing; F+R+S equals Demand when the three shares sum to 1 |
| EdgeFactors.Melt | normits_demand/models/forecasting/edge_forecast.py:455-478 | the melt holds every F row, then every R row, then every S row, each with its ticket type |
| EdgeFactors.BorrowFor | normits_demand/models/forecasting/edge_forecast.py:504-544 | a borrowed row has the missing key and Flag 0, and the rate of the first factor of its movement |
| EdgeFactors.Borrowed | normits_demand/models/forecasting/edge_forecast.py:518-544 | every borrowed row is for a missing key, has Flag 0 and takes its movement's first factor's rate |
| EdgeFactors.BorrowedUnique | normits_demand/models/forecasting/edge_forecast.py:522-524 | borrowed rows of distinct keys have distinct exact keys |
| EdgeFactors.Resolve | normits_demand/models/forecasting/edge_forecast.py:420-583 | the updated table starts with the non-NaN input factors, unchanged; every appended row has Flag 0; both audit tables have distinct keys |
| EdgeFactors.ResolveAudits | normits_demand/models/forecasting/edge_forecast.py:484-583 | the no-factor audit totals the demand of the coded missing rows with no factor for their movement; the substitution audit totals, per coded missing row, its demand once for each factor of its movement |
| EdgeFactors.NoFactorTotal | normits_demand/models/forecasting/edge_forecast.py:570-581 | the no-factor rows of the merge add up to the unfactored demand |
| EdgeFactors.OtherTotal | normits_demand/models/forecasting/edge_forecast.py:507-568 | the substitution rows of the merge add up to the substituted demand |
| EdgeFactors.BorrowedCoversMissing | normits_demand/models/forecasting/edge_forecast.py:504-546 | every coded missing row whose movement has a rated factor gets a borrowed row with its exact key |
| EdgeFactors.ResolveIsKeptThenBorrowed | normits_demand/models/forecasting/edge_forecast.py:451-546 | the updated table is the rated factors followed by the borrowed rows |
| EdgeFactors.BorrowedAreMissing | normits_demand/models/forecasting/edge_forecast.py:480-485 | no borrowed row shares its exact key with a rated input factor |
| EdgeFactors.BorrowedOnePerKey | normits_demand/models/forecasting/edge_forecast.py:522-524 | at most one borrowed row per (ZoneCodeFrom, ZoneCodeTo, TicketType, purpose) |
| EdgeFactors.BorrowedRateIsFirst | normits_demand/models/forecasting/edge_forecast.py:504-524 | a borrowed row takes the rate of the first rated factor of its movement (the row drop_duplicates keeps) |
| EdgeFactors.EdgeTableAuthoritative | normits_demand/models/forecasting/edge_forecast.py:1189 | the EDGE table as read, all Flag 1, satisfies the authority invariant |
| EdgeFactors.ResolvePreservesAuthority | normits_demand/models/forecasting/edge_forecast.py:504-546 | resolution keeps the invariant: the re-join on the running table still finds an EDGE factor first, so borrowed rates are always EDGE rates |
| EdgeFactors.ResolveKeepsKeysUnique | normits_demand/models/forecasting/edge_forecast.py:546 | a factor table without duplicate exact keys stays without them |
| EdgeFactors.OtherRowsNotInternal | normits_demand/models/forecasting/edge_forecast.py:489-493 | as written, every substituted-ticket audit row has Internal 0 |
| EdgeFactors.NoFactorRowsNotInternal | normits_demand/models/forecasting/edge_forecast.py:489-493 | as written, every no-factor audit row has Internal 0 |
| EdgeFactors.NoInternalKeys | normits_demand/models/forecasting/edge_forecast.py:489-493 | as written, no key of either audit is internal |
| EdgeFactors.InternalNeverSet | normits_demand/models/forecasting/edge_forecast.py:489-493 | as written, a missing movement between model zones 1 and 2 is logged as not internal |
| EdgeFactors.InternalIntendedFlagsInternal | normits_demand/models/forecasting/edge_forecast.py:489-493 | the intended flag is 1 exactly when both model zones are below 1158 |
| EdgeGrowth.Times | normits_demand/models/forecasting/edge_forecast.py:640 | the product is present exactly when the demand is, and a rate of 1 leaves it unchanged |
| EdgeGrowth.Method1 | normits_demand/models/forecasting/edge_forecast.py:586-658 | at least one grown row per melted row |
| EdgeGrowth.Method1Rows | normits_demand/models/forecasting/edge_forecast.py:632-640 | N_Demand = T_Demand × rate; a row with no factor has rate 1, Flag 0 and unchanged demand; any other row takes a matching factor's rate and Flag |
| EdgeGrowth.MeanSkipNa | normits_demand/models/forecasting/edge_forecast.py:730 | the mean is missing exactly when both sides are; one present side is its own mean; two present sides give their midpoint |
| EdgeGrowth.Method2 | normits_demand/models/forecasting/edge_forecast.py:661-757 | at least one grown row per melted row |
| EdgeGrowth.Method2Rows | normits_demand/models/forecasting/edge_forecast.py:707-739 | N_Demand = T_Demand × rate; every row comes from a forward factor (or none, exactly when its movement is unfactored) and a reverse factor (or none, exactly when there is no reverse match), its rate is the NaN-skipping mean of the two rates or 1 when both are missing, and its Flag is 1 exactly when both factors have Flag 1 |
| EdgeGrowth.ForwardRows | normits_demand/models/forecasting/edge_forecast.py:707-712 | every row of the first merge comes from a melted row and from an exactly matching factor, or from none exactly when the row is unfactored; an unfactored row has no forward rate and Flag 0 |
| EdgeGrowth.GrowWithoutReverse | normits_demand/models/forecasting/edge_forecast.py:730-739 | one row with no reversed factor grows as in method 1, with Flag 0 |
| EdgeGrowth.SecondMergeEmpty | normits_demand/models/forecasting/edge_forecast.py:714-719 | with no reversed factor, the second merge matches nothing |
| EdgeGrowth.Method2WithoutReverse | normits_demand/models/forecasting/edge_forecast.py:714-739 | with no reversed factor for any row, method 2 applies exactly method 1's growth, row by row |
| EdgeGrowth.ZoneCells | normits_demand/models/forecasting/edge_forecast.py:1357-1363 | each grown row contributes its zone pair and N_Demand, a missing value counting 0 |
| EdgeGrowth.ZoneTotals | normits_demand/models/forecasting/edge_forecast.py:1357-1363 | the group-by has distinct zone pairs and keeps the grown total |
| EdgeGrowth.ZoneCellsTotal | normits_demand/models/forecasting/edge_forecast.py:1357-1363 | the zone cells add up to the grown total |
| EdgeGrowth.Method1Neutral | normits_demand/models/forecasting/edge_forecast.py:632-640 | with no factors, method 1 keeps the segment's base demand total |
| EdgeGrowth.NeutralTotal | normits_demand/models/forecasting/edge_forecast.py:636-640 | rows grown with rate 1 (the fillna for a missing factor) keep their base total |
| EdgeCombine.Transposed | normits_demand/models/forecasting/edge_forecast.py:1149-1153 | every row keeps its value with origin and destination swapped |
| EdgeCombine.TransposedTwice | normits_demand/models/forecasting/edge_forecast.py:1149-1153 | transposing twice gives the matrix back |
| EdgeCombine.TransposedValueAt | normits_demand/models/forecasting/edge_forecast.py:1149-1153 | the transposed matrix holds at (a, b) what the matrix holds at (b, a) |
| EdgeCombine.ZoneFrame.TransposeMatrix | normits_demand/models/forecasting/edge_forecast.py:1132-1157 | the caller's frame is overwritten with the transposed rows, and the returned frame holds the same rows |
| EdgeCombine.GridFacts | normits_demand/models/forecasting/edge_forecast.py:953-956 | the grid has every zone pair of 1..zones exactly once, with value 0 |
| EdgeCombine.Halved | normits_demand/models/forecasting/edge_forecast.py:920-931 | every cell keeps its pair and holds half its value |
| EdgeCombine.ExpandMatrixSpec | normits_demand/models/forecasting/edge_forecast.py:935-959 | the expanded matrix has distinct pairs covering the grid and the matrix's own pairs; each holds the matrix's demand, or 0 |
| EdgeCombine.AverageTwoSpec | normits_demand/models/forecasting/edge_forecast.py:900-932 | the average has distinct pairs covering the grid and both matrices' pairs; each holds (x + y) / 2, a missing side counting 0 |
| EdgeCombine.AverageWithTransposed | normits_demand/models/forecasting/edge_forecast.py:981-983 | an averaged segment's cell (i, j) is the mean of from-home (i, j) and to-home (j, i) |
| EdgeCombine.SumPeriodsSpec | normits_demand/models/forecasting/edge_forecast.py:863-897 | the 24-hour matrix has distinct pairs, exactly the union of the periods' pairs, each holding AM+IP+PM+OP with absent cells 0 |
| EdgeCombine.FromPlan | normits_demand/models/forecasting/edge_forecast.py:1053-1129 | by_from expands every NoRMS segment, in order |
| EdgeCombine.Step | normits_demand/models/forecasting/edge_forecast.py:979-1048 | a statement raises KeyError exactly when a matrix it reads is absent |
| EdgeCombine.CombineAll | normits_demand/models/forecasting/edge_forecast.py:962-1050 | the combination succeeds exactly when every statement does, and then produces exactly the plan's segment names |
| EdgeCombine.TransposesWithin | normits_demand/models/forecasting/edge_forecast.py:979-1015 | only the to-home frames of averaged segments are transposed |
| EdgeCombine.TransposeFrame | normits_demand/models/forecasting/edge_forecast.py:981-983 | the frame under the key is transposed in place; the others are untouched |
| EdgeCombine.CombineFrames | normits_demand/models/forecasting/edge_forecast.py:962-1050 | the in-place run over the frames returns the combination of their original contents, and leaves exactly the read to-home frames transposed |
| EdgeCombine.NormsSegmentNames | normits_demand/models/forecasting/edge_forecast.py:1193-1213 | the NoRMS segment names are distinct and none has the to-home form |
| EdgeCombine.PlansProduceNormsSegments | normits_demand/models/forecasting/edge_forecast.py:962-1129 | both plans produce the NoRMS segments in order, and no statement reads a frame an earlier one transposed |
| EdgeCombine.CombinedCoverGrid | normits_demand/models/forecasting/edge_forecast.py:962-1050 | when every matrix the plan reads is present, combining succeeds, and every output has distinct pairs covering the whole grid |
| EdgeRun.Lookup | normits_demand/models/forecasting/edge_forecast.py:1349 | `segments_method[segment]`: no value exactly when the segment is absent; otherwise a stored pair |
| EdgeRun.MethodsAreOneOrTwo | normits_demand/models/forecasting/edge_forecast.py:1232-1262 | the method table has 29 segments, each with method 1 or 2 |
| EdgeRun.ToHomeTwins | normits_demand/models/forecasting/edge_forecast.py:1232-1262 | each internal to-home segment follows its from-home twin ten places on, with the same method |
| EdgeRun.ToHomeHaveMethods | normits_demand/models/forecasting/edge_forecast.py:1216-1262 | every internal to-home segment has a method |
| EdgeRun.PlanReadsSegments | normits_demand/models/forecasting/edge_forecast.py:962-1050 | every matrix the averaging plan reads is one the method table produces |
| EdgeRun.SegmentList | normits_demand/models/forecasting/edge_forecast.py:1265 | one segment per row of the segment table |
| EdgeRun.WithEdgeFlag | normits_demand/models/forecasting/edge_forecast.py:1189 | every factor row is kept, with Flag 1 |
| EdgeRun.RoundHalfEven | normits_demand/models/forecasting/edge_forecast.py:1308 | round: the nearest integer, with ties to the even one |
| EdgeRun.Ratio | normits_demand/models/forecasting/edge_forecast.py:828-834 | numpy's num / den × 100: finite exactly when den ≠ 0 (then p × den = num × 100); otherwise +inf, -inf or NaN by the sign of num |
| EdgeRun.Round3 | normits_demand/models/forecasting/edge_forecast.py:828-834 | rounding to three decimals moves a finite value by at most 0.0005 and leaves infinities and NaN alone |
| EdgeRun.GateThreshold | normits_demand/models/forecasting/edge_forecast.py:1388 | the rounded percentage exceeds 1 exactly when num / den × 100 > 1.0005, or, with den = 0, when num > 0 |
| EdgeRun.Userclass | normits_demand/models/forecasting/edge_forecast.py:1312-1316 | no value exactly when no table row is for the segment; otherwise a row's userclass for it |
| EdgeRun.PositiveDemand | normits_demand/models/forecasting/edge_forecast.py:1312-1322 | the rows kept are exactly the input rows with positive demand, tagged with the userclass |
| EdgeRun.TicketLogRows | normits_demand/models/forecasting/edge_forecast.py:836-848 | regrouping the ticket audit without Internal keeps its rows and total |
| EdgeRun.NoFactorLogRows | normits_demand/models/forecasting/edge_forecast.py:849-851 | regrouping the no-factor audit without Internal keeps its rows and total |
| EdgeRun.LoggingInfo | normits_demand/models/forecasting/edge_forecast.py:760-860 | the grouped audits keep their totals and have distinct keys; the no-factor and ticket percentages are their totals over demand_total × 100, and the two internal percentages are each audit's Internal 1 total over its whole total × 100, all rounded to three decimals |
| EdgeRun.NoInternalLogged | normits_demand/models/forecasting/edge_forecast.py:808-831 | with no Internal key in either audit, both internal percentages are 0, or NaN for an empty audit |
| EdgeRun.Finish | normits_demand/models/forecasting/edge_forecast.py:1375-1444 | with no segments, a KeyError; otherwise the run stops at the gate exactly when the rounded unfactored percentage exceeds 1; anything written passed the gate |
| EdgeRun.Advance | normits_demand/models/forecasting/edge_forecast.py:1335-1372 | a processed segment only appends to the two audits, stores its zone matrix under (period, segment), and leaves every other stored matrix alone |
| EdgeRun.AdvanceAudits | normits_demand/models/forecasting/edge_forecast.py:1335-1346 | the audits grow by the segment's unfactored and substituted demand |
| EdgeRun.SegStep | normits_demand/models/forecasting/edge_forecast.py:1306-1372 | a stopped run stays stopped; a running one continues exactly when the demand file exists, the segment has a userclass row and a method, and otherwise stops on the missing file or a raised error; a continued run has stored the segment's matrix |
| EdgeRun.ProcessSegment | normits_demand/models/forecasting/edge_forecast.py:1306-1372 | the segment-loop body equals one step of the run specification |
| EdgeRun.ProcessPeriod | normits_demand/models/forecasting/edge_forecast.py:1298-1372 | the segment loop of one period equals the fold of the segment steps |
| EdgeRun.RunEdgeGrowth | normits_demand/models/forecasting/edge_forecast.py:1160-1451 | the nested period and segment loops, then the summary, gate and combination, equal the run specification |
| EdgeRun.DailyFrames | normits_demand/models/forecasting/edge_forecast.py:1425-1434 | one fresh, separate frame per segment holding its 24-hour sum, or the first KeyError |
| EdgeRun.FinishRun | normits_demand/models/forecasting/edge_forecast.py:1375-1444 | the gate, the 24-hour frames and the in-place combination equal the finishing specification |
| EdgeRun.AdvanceOk | normits_demand/models/forecasting/edge_forecast.py:1335-1372 | one processed segment keeps the run invariant: an authoritative factor table and duplicate-free zone matrices |
| EdgeRun.SegStepOk | normits_demand/models/forecasting/edge_forecast.py:1306-1372 | one step of the segment loop keeps the run invariant |
| EdgeRun.SegFoldOk | normits_demand/models/forecasting/edge_forecast.py:1298-1372 | the segment loop keeps the invariant and stops only on a missing file or a raised error |
| EdgeRun.PeriodFoldOk | normits_demand/models/forecasting/edge_forecast.py:1280-1372 | the period loop keeps the invariant and stops only on a missing file or a raised error |
| EdgeRun.RunKeepsAuthority | normits_demand/models/forecasting/edge_forecast.py:1280-1372 | after the loops the factor table is still authoritative, however often later segments borrow from borrowed rows; every zone matrix is duplicate-free; an early stop is a missing file or an error |
| EdgeRun.DailyFromFacts | normits_demand/models/forecasting/edge_forecast.py:1425-1434 | the 24-hour matrices are keyed by exactly the segments, and each has distinct pairs |
| EdgeRun.PlanNames | normits_demand/models/forecasting/edge_forecast.py:962-1050 | the averaging plan's outputs are exactly the NoRMS segments |
| EdgeRun.CombinedCoverGridAll | normits_demand/models/forecasting/edge_forecast.py:1437-1444 | 24-hour matrices for every segment lead to a write of every NoRMS segment over the whole 1300-zone grid |
| EdgeRun.FinishNotWritten | normits_demand/models/forecasting/edge_forecast.py:1388-1434 | no segments, a failed gate or a missing period matrix means nothing is written |
| EdgeRun.FinishCombines | normits_demand/models/forecasting/edge_forecast.py:1404-1444 | past the gate, with all period matrices present, the written outcome is the combination of the 24-hour matrices |
| EdgeRun.DailyCovers | normits_demand/models/forecasting/edge_forecast.py:1425-1444 | from any invariant state, the combined 24-hour matrices cover the NoRMS segments and the grid |
| EdgeRun.FinishWrites | normits_demand/models/forecasting/edge_forecast.py:1375-1444 | from any invariant state, a write holds every NoRMS segment over the whole grid |
| EdgeRun.RunLogsNoInternal | normits_demand/models/forecasting/edge_forecast.py:1375-1386 | whenever the run reaches the summary, both internal percentages are 0 or NaN, because Internal is never set |
| EdgeRun.WrittenCoverNorms | normits_demand/models/forecasting/edge_forecast.py:1160-1451 | whenever the run writes, the unfactored share passed the 1% gate, and every NoRMS segment has a duplicate-free matrix covering all 1300 × 1300 zone pairs |

## Left out

- Reading and writing CSV and HDF files, logging, tqdm bars, `print` and `sys.exit` are not modelled. The run's inputs are a record of tables, a missing file is a missing map entry, and the gate stop and the write are outcomes of the run.
- check_file_exist is not modelled: a missing input file is the `FileMissing` outcome.
- Floating point is not modelled: demand is exact. NaN is modelled only where it steers behaviour (missing shares, rates and distances, and the gate's divisions by zero).
- The EDGE run's NaN merge keys are not modelled: a missing TLC never matches a factor, and the group-by drops it.
- The run's group-by order (pandas sorts keys) and DataFrame column order are not modelled. Outputs are keyed tables.
- The extra columns of the growth-method outputs are not modelled, nor the `from`/`to` columns transpose_matrix adds and drops.
- EdgeRun.Finish: the KeyError for an empty segment list is stated in one direction only. It stands in for pandas' KeyError when grouping the empty audit frames.
- The per-segment `tot_output_demand` log line is not modelled.
- fromto_2_from_by_from is modelled (EdgeCombine.FromPlan), but the run does not call it.
- EdgeRun.SegStep: a segment with no userclass row or no method is a raised error. From the tables in the run this cannot happen, but inputs are not restricted.
- The method 2 mean skips a missing direction. When the reverse rate is missing, a forward rate of 1.2 gives 1.2, not the 1.1 a count-as-1 reading would give. The model follows the code.
- A missing ticket split leaves T_Demand missing, and the zone group-by counts it as 0, so that demand is not carried into the grown matrix.
- Chained assignment (`df["Purpose"].loc[...] = ...`) is modelled as the intended in-place write. The masked Internal expression at edge_forecast.py lines 489-493 is modelled as assigning nothing, and the run uses that rule.
- EdgeRun.RunSpec is the specification function of the run and carries no contract of its own; its properties are stated by EdgeRun.RunEdgeGrowth, RunKeepsAuthority, RunLogsNoInternal and WrittenCoverNorms.
- The dtype and `finfo` range checks of the numpy translations, and `is_almost_equal`'s tolerance, are not modelled. Totals are compared exactly.
- The dtype checks of pandas_matrix_zone_translation are modelled as dtype labels. `long_to_wide_infill` is modelled by its result only; its body is not part of this model.
- numpy broadcasting in `_build_od_internal` is modelled as success or failure by vector length. A NaN phi cell is not modelled.
- `du.get_dist_name`, `du.expand_distribution` and `du.get_segmentation_mask` are not part of this model. The 24-hour matrix and the split rows arrive already expanded and filtered.
- `consts.VALID_MATRIX_FORMATS` is not part of this model. Any format other than "pa" or "od" is a ValueError.
- PaToOd.PurposeSetup: `efs_constants` (imported as `consts` at pa_to_od.py:22) is not part of this model. Its ALL_HB_P, ALL_NHB_P and ALL_P are taken to equal the lists at normits_demand/constants.py:114-116, and the same holds for FirstInvalid, RunPurposesError, RunYearsError and BuildTpPaErrors, which use them.
- PaToOd.Ratio: a zero zone total always gives a missing split, which `fillna(0)` turns into 0. numpy gives NaN for 0 / 0, which matches, but ±inf for non-zero trips over a zero total. That can only happen when a zone's trips include negative values that cancel (for example [2, -2]). The ±inf split and the ±inf or NaN trips it would produce are not modelled. PaToOd.ZeroTotalOnlyZeroTrips shows the case cannot arise with non-negative trips.
- The nhb `tp_split` group-by of efs_build_tp_pa is not modelled.
- Paths follow POSIX pathlib of Python 3.8 to 3.11. The `//` root and Windows paths are not modelled.
- The iteration order of the PD_COMPRESSION set is not fixed by Python. find_filename takes it as a parameter that must be some ordering of the set.
- Lower-casing is ASCII only. No non-ASCII character lowers to "csv".
- get_latest_modified_time receives each path's modification time instead of reading the filesystem.
- The folder listing order of get_constraint_matrices, and `np.loadtxt`, are parameters of the model.
- read_df, write_df, the copy helpers, pickle helpers, safe_dataframe_to_csv and create_folder are not modelled: they only do file I/O.

## Findings

| source | as written | input that shows it | evidently intended | confidence | as-written member | corrected member |
|---|---|---|---|---|---|---|
| normits_demand/utils/translation.py:393-403 | `len(zones) < len(set(zones))` can never be true | from_unique_zones = [1, 1] passes the guard | raise when a zone is repeated: `len(set(zones)) < len(zones)` | not executed | Translation.PandasMatrixZoneTranslation | Translation.GuardedPandasMatrixZoneTranslation |
| normits_demand/utils/file_ops.py:204-216 | with overwrite, one suffix is removed, and the new one is added only when no suffix is left | `a.tar.gz`, ".csv", overwrite gives `a.tar` | replace the final suffix: `a.tar.csv` | not executed | FileOps.AsWrittenMaybeAddSuffix | FileOps.MaybeAddSuffix |
| normits_demand/models/forecasting/edge_forecast.py:489-493 | the masked Internal expression assigns nothing, so Internal stays 0 | a missing movement between model zones 1 and 2 is logged with Internal 0 | Internal 1 when both model zones are below 1158 | not executed | EdgeFactors.InternalNeverSet | EdgeFactors.InternalIntendedFlagsInternal |
