# Benchmark result aggregation, modelled in Dafny

This project models the computing core of `scripts/aggregate_results.py`, the
script that turns submitted benchmark-run results into per-cohort comparison
reports:

- **Dimension scores** (`calculate_scores`): a record's raw metrics become the
  score fields C (correctness), R (reproducibility), D (determinism), E
  (operator effort), S (speed), K (contract/docs), P_O (overreach penalty) and
  overall. A missing or non-numeric metric gives the explicit "Unknown"
  sentinel, except where the code supplies a default.
- **Speed normalization** (`calculate_speed_scores`): records are grouped into
  cohorts by (spec_reference, target_model, api_style). Within each cohort the
  numeric TTFR and TTFC times are min-max normalized to 0..100, fastest
  highest. The two scores are written onto the records in place, and
  S = 0.4 TTFR + 0.6 TTFC is written into the scores of every record that
  holds both.
- **Cohort grouping** (`group_results`).
- **Comparison reports** (`generate_comparison_report`): runs are paired by tool
  identity into run-1 and run-2 slots. Tools are listed in sorted order. Each
  tool gives one table row and one detailed-results entry, and the report
  carries its id and cohort fields.
- **The pipeline of `main`**: filter by spec version, score each record, run
  the speed pass, and build one report per cohort.

Modules follow the stages of the script:

| file | module | contents |
|---|---|---|
| `values.dfy` | `Values` | raw values (`Val`), the `Score` sentinel, `round(x, 1)`, min/max/clamp |
| `scoring.dfy` | `Scoring` | `Metrics`, `ScoreSet`, the per-dimension rules, `CalculateScores` |
| `records.dfy` | `Records` | run identity, cohort key, and the `Record` class whose `scores` and `_ttfr_score`/`_ttfc_score` entries are updated in place |
| `cohorts.dfy` | `Cohorts` | `Cohort` (the specification of a cohort) and the grouping loop `GroupResults` |
| `speed.dfy` | `Speed` | the speed pass as methods over `Record` objects, proved against the function `Renormalized` |
| `text.dfy` | `Text` | Python's `str.strip()`, the code-point order of `sorted`, sorted insertion |
| `report.dfy` | `Report` | tool keys, run pairing (`ToolSlotsOf`), rows, details, the report id, `GenerateComparisonReport` |
| `pipeline.dfy` | `Pipeline` | the spec-version filter and the computing part of `main` |

Records are objects (`class Record`). Their identity, metrics and file name
never change once loaded. `scores` and `normalized` are updated in place, as
the script updates its result dictionaries. The loops of the script are
`method`s with loop invariants. Each method is proved against a function of
its inputs (`Cohort`, `Times`, `Renormalized`, `WithSpeed`, `ToolSlotsOf`,
`RowOf`, `Selected`), and the properties of the script are proved about those
functions as lemmas.

### Behaviour of the code that a reader might not expect

The model follows the code in each of these places.

- **overall is computed once.** It is computed inside `calculate_scores`,
  while S is still "Unknown", and the speed pass never recomputes it, so S
  never contributes to overall (`Pipeline.Aggregate`: every field but S is
  exactly as `calculate_scores` left it).
- **P_O is counted in the mean and then subtracted.** The mean is taken over
  all numeric fields in dictionary order C, R, D, E, S, K, P_O, so P_O is both
  averaged and subtracted. The four-field threshold also counts P_O. So a run
  whose only numeric fields are C, R, E and P_O gets an overall, although only
  three of them are quality dimensions (`Scoring.OverallKnownIff`).
  - A flawless run scores 83.3, not 100 (`Scoring.FlawlessRunOverall`).
- **E is never "Unknown".** Effort counts that are "Unknown" contribute
  nothing, so E stays at 100. A record whose metrics are all "Unknown"
  therefore has E = 100, not an all-"Unknown" score set
  (`Scoring.AllUnknownMetrics`).
- **An empty `--spec-version` is no filter.** The filter tests the value for
  truth, so an empty string keeps every record, just as no value does.
- **A table row copies one run's scores.** Every scored record holds all
  eight score keys, so the per-key lookup "run 1, else run 2" takes the whole
  dictionary of run 1 whenever there is a run 1, even where a field of it is
  "Unknown" and run 2 has a number. Nothing is averaged.
- **Repeated runs and other run numbers.** A later run with the same tool key
  and run number replaces an earlier one. A run numbered other than 1 or 2
  is dropped, and a tool with only such runs does not appear in the report.
- **Timing cells.** A missing run shows "N/A". A run whose `minutes` key is
  missing shows "Unknown".
- **Report ids can collide.** The report id is the plain concatenation
  `{spec}-Model{model}-{api}-Comparison`, so two cohorts can share an id and
  hence a file name. `Report.ReportIdInjective` proves the ids distinct only
  when spec references have equal length and model names hold no '-'. When
  two ids do collide, the loop at lines 393-394 writes both reports to the
  same file and the cohort written last wins, so the program's output then
  depends on the order in which cohorts are visited.

## Model

| member | source | states |
|---|---|---|
| `Values.Round1` | scripts/aggregate_results.py:74 | definition: `round(x, 1)`, the nearest multiple of 0.1, as also used at lines 114, 134, 141, 155, 199, 211 and 217 (properties in `Values.Round1Near`, `Values.Round1Tenths`, `Values.Round1Int`, `Values.Round1Monotone`, `Values.Round1Between`) |
| `Values.Round1Near` | scripts/aggregate_results.py:74 | `round(x, 1)` lies within 0.05 of `x` |
| `Values.Round1Tenths` | scripts/aggregate_results.py:199 | rounding leaves a multiple of 0.1 unchanged |
| `Values.Round1Int` | scripts/aggregate_results.py:196-199 | rounding leaves a whole number unchanged |
| `Values.Round1Monotone` | scripts/aggregate_results.py:155 | rounding preserves order |
| `Values.Round1Between` | scripts/aggregate_results.py:155 | a value between two whole numbers rounds to a value between them |
| `Values.Min` | scripts/aggregate_results.py:141 | `min` is a lower bound of both arguments and equals one of them |
| `Values.Max` | scripts/aggregate_results.py:114 | `max` is an upper bound of both arguments and equals one of them |
| `Values.Clamp` | scripts/aggregate_results.py:155 | `max(0, min(100, x))` lies in 0..100 and is `x` itself when `x` already does |
| `Values.SeqMin` | scripts/aggregate_results.py:190 | `min` of a non-empty list is an element of it and no larger than any element |
| `Values.SeqMax` | scripts/aggregate_results.py:203 | `max` of a non-empty list is an element of it and no smaller than any element |
| `Values.Sum` | scripts/aggregate_results.py:154 | definition: `sum(known_scores)`, the sum of a list of numbers (properties in `Scoring.SumAppend`, `Scoring.KnownValuesSum`) |
| `Values.KnownValues` | scripts/aggregate_results.py:148 | definition: the numeric score fields in field order, as the comprehension over `scores.values()` collects them (properties in `Scoring.KnownValuesCount`, `Scoring.KnownValuesSum`) |
| `Scoring.Correctness` | scripts/aggregate_results.py:70-78 | C is numeric exactly when the passrate is a number |
| `Scoring.CorrectnessOfPassrate` | scripts/aggregate_results.py:73-74 | C is the passrate as a percentage rounded to 0.1, and lies in 0..100 for a passrate in 0..1 |
| `Scoring.Reproducibility` | scripts/aggregate_results.py:80-89 | R is numeric exactly when the rating is "None", "Minor" or "Major" |
| `Scoring.Determinism` | scripts/aggregate_results.py:91-99 | D is numeric exactly when the compliance is "Pass" or "Fail" |
| `Scoring.RatingScores` | scripts/aggregate_results.py:80-99 | R maps "None", "Minor", "Major" to 100, 80, 40 and D maps "Pass", "Fail" to 100, 0 |
| `Scoring.Effort` | scripts/aggregate_results.py:101-114 | E is always numeric and never negative |
| `Scoring.EffortBounds` | scripts/aggregate_results.py:101-114 | with no negative counts E lies in 0..100 |
| `Scoring.EffortWholeCounts` | scripts/aggregate_results.py:101-114 | with whole-number counts c, i, n nothing is rounded away: E is exactly 100 − 3c − 10i − 5n, or 0 when that is negative |
| `Scoring.EffortSkipsNonNumbers` | scripts/aggregate_results.py:103-112 | a count that is missing or not a number, in any of the three positions, gives the same E as a count of 0 |
| `Scoring.EffortFullWithoutDeductions` | scripts/aggregate_results.py:102-112 | E is 100 when every numeric count is 0, including when every count is "Unknown" or missing |
| `Scoring.ContractDocs` | scripts/aggregate_results.py:119-136 | K is numeric exactly when both the contract passrate and the instructions quality are numbers |
| `Scoring.ContractDocsInRange` | scripts/aggregate_results.py:133-134 | K is 0.7 × the contract percentage + 0.3 × the quality, rounded; for inputs in their documented ranges it lies in 0..100 |
| `Scoring.CountValue` | scripts/aggregate_results.py:103-112 | definition: the number an effort count contributes, its value when numeric and 0 when missing or not a number (properties in `Scoring.EffortSkipsNonNumbers`, `Scoring.EffortWholeCounts`) |
| `Scoring.Overreach` | scripts/aggregate_results.py:138-143 | P_O is numeric exactly when the count is a number or missing, and never exceeds 40 |
| `Scoring.OverreachCases` | scripts/aggregate_results.py:138-143 | 0 incidents, or a missing count, give 0; 5, 6 or more give the cap of 40; non-numbers give "Unknown"; P_O lies in 0..40 for a non-negative count |
| `Scoring.OverreachWholeCount` | scripts/aggregate_results.py:138-141 | a whole overreach count n gives P_O exactly 8n, or 40 once 8n exceeds 40, with no rounding term |
| `Scoring.Penalty` | scripts/aggregate_results.py:149-151 | definition: the amount subtracted from the mean, P_O when numeric and 0 otherwise (used by `Scoring.OverallOfCounts`) |
| `Scoring.Overall` | scripts/aggregate_results.py:145-157 | overall is numeric exactly when at least four fields are numeric, and then lies in 0..100 |
| `Scoring.KnownValuesCount` | scripts/aggregate_results.py:148 | the list of known scores has one entry per numeric field |
| `Scoring.KnownValuesSum` | scripts/aggregate_results.py:148-154 | the sum of the known scores is the sum of the numeric fields |
| `Scoring.OverallOfCounts` | scripts/aggregate_results.py:148-157 | overall is the clamped, rounded mean of the numeric fields less the penalty, or "Unknown" under four numeric fields |
| `Scoring.CalculateScores` | scripts/aggregate_results.py:66-159 | S is always "Unknown" and E always numeric after scoring |
| `Scoring.OverallKnownIff` | scripts/aggregate_results.py:145-157 | overall is numeric exactly when at least four of C, R, D, E, K, P_O are numeric, expressed on the raw metrics |
| `Scoring.AllUnknownMetrics` | scripts/aggregate_results.py:66-159 | all-"Unknown" metrics give E = 100 and "Unknown" everywhere else, overall included |
| `Scoring.FlawlessRunFields` | scripts/aggregate_results.py:66-143 | a flawless run scores 100 on C, R, D, E, K, 0 on P_O, and "Unknown" on S |
| `Scoring.OverallOfFiveHundredOverSix` | scripts/aggregate_results.py:153-155 | six numeric fields summing to 500 with no penalty give overall 83.3 |
| `Scoring.FlawlessRunOverall` | scripts/aggregate_results.py:145-157 | a flawless run scores 83.3 overall, because P_O = 0 is averaged in |
| `Scoring.ScoresInRange` | scripts/aggregate_results.py:66-159 | for metrics in their documented ranges every numeric field lies in 0..100, and P_O in 0..40 |
| `Records.Key` | scripts/aggregate_results.py:169 | definition: the cohort key (spec reference, target model, API style), as also built at line 226 (properties in `Cohorts.CohortMembers`, `Cohorts.GroupResults`) |
| `Cohorts.Cohort` | scripts/aggregate_results.py:224-227 | the records of one cohort in input order; every record in it has the cohort's key, and it is no longer than the input |
| `Cohorts.GroupResults` | scripts/aggregate_results.py:220-229 | the grouping maps exactly the keys that occur, each to its non-empty cohort in input order |
| `Cohorts.CohortMembers` | scripts/aggregate_results.py:224-227 | a record is in cohort k exactly when it is in the input and has key k |
| `Cohorts.CohortEmptyIff` | scripts/aggregate_results.py:220-229 | a cohort is empty exactly when its key does not occur |
| `Cohorts.CohortMultiplicity` | scripts/aggregate_results.py:224-227 | every occurrence of a record is in the cohort of its key and in no other |
| `Cohorts.CohortOfConcat` | scripts/aggregate_results.py:224-227 | cohorts keep input order: the cohort of a concatenation is the concatenation of cohorts |
| `Cohorts.CohortIgnoresOthers` | scripts/aggregate_results.py:224-227 | records of other keys leave a cohort unchanged |
| `Speed.Times` | scripts/aggregate_results.py:189 | definition: the numeric times of one series among a cohort's records, in cohort order, as also at line 202 (properties in `Speed.TimesMember`, `Speed.CollectTimes`) |
| `Speed.Assign` | scripts/aggregate_results.py:199 | definition: writing a normalized score over the previous `_ttfr_score` or `_ttfc_score` entry, and leaving the entry alone when there is no score, as also at line 211 (used by `Speed.Renormalized`; properties in `Speed.SpeedKnownIff`) |
| `Speed.Normalize` | scripts/aggregate_results.py:193-196 | definition: min-max normalization, dividing only when the slowest time exceeds the fastest and giving 100 otherwise (properties in `Speed.NormalizeBounds`, `Speed.NormalizeEndpoints`, `Speed.NormalizeAntitone`) |
| `Speed.SeriesScore` | scripts/aggregate_results.py:188-199 | a record gets a series score exactly when its time is a number and the series has at least two numeric times |
| `Speed.Renormalized` | scripts/aggregate_results.py:188-211 | definition: a record's normalized scores after its cohort's two series are normalized, each replacing the previous entry only where there is a score (the specification of `Speed.NormalizeCohort`) |
| `Speed.CombinedSpeed` | scripts/aggregate_results.py:213-217 | S exists exactly when the record holds both normalized scores |
| `Speed.WithSpeed` | scripts/aggregate_results.py:213-217 | combining changes at most S, and only for a record holding both normalized scores |
| `Speed.CollectTimes` | scripts/aggregate_results.py:175-185 | the collected pairs hold each record's own numeric time, list the cohort's numeric times in order, and hold exactly the records whose time is a number |
| `Speed.ScoreSeries` | scripts/aggregate_results.py:188-211 | every collected record gets the rounded normalized score of its time over the series' min and max when there are two or more times, and no other field changes |
| `Speed.CombineSpeeds` | scripts/aggregate_results.py:213-217 | every record of the cohort gets S from its two normalized scores when it holds both; the normalized scores stay |
| `Speed.NormalizeCohort` | scripts/aggregate_results.py:175-217 | each record's normalized scores are those of its cohort, and its S is their combination |
| `Speed.NormalizeCohorts` | scripts/aggregate_results.py:173-217 | processing the cohorts in any order gives every record the normalized scores and S of its own cohort |
| `Speed.CalculateSpeedScores` | scripts/aggregate_results.py:162-217 | after the pass every record's normalized scores and S are those of its own cohort, and no other score field changes |
| `Speed.NormalizeBounds` | scripts/aggregate_results.py:193-196 | a time between the fastest and the slowest normalizes into 0..100 |
| `Speed.NormalizeEndpoints` | scripts/aggregate_results.py:193-194 | with distinct times the fastest normalizes to 100 and the slowest to 0 |
| `Speed.NormalizeAntitone` | scripts/aggregate_results.py:193-194 | a slower time never normalizes higher |
| `Speed.TimesMember` | scripts/aggregate_results.py:178-185 | a record's numeric time is among its cohort's collected times |
| `Speed.SeriesScoreInRange` | scripts/aggregate_results.py:188-199 | a series score exists exactly for a numeric time in a series of at least two, and lies in 0..100 |
| `Speed.SeriesScoreBestWorst` | scripts/aggregate_results.py:187-199 | with distinct times the fastest scores 100 and the slowest 0 |
| `Speed.SeriesScoreTied` | scripts/aggregate_results.py:195-196 | when all times of a series are equal every record scores 100 |
| `Speed.SeriesScoreOrder` | scripts/aggregate_results.py:192-199 | a faster time never scores lower than a slower one |
| `Speed.SeriesScoreExample` | scripts/aggregate_results.py:188-199 | times 10, 20 and 30 score 100, 50 and 0 |
| `Speed.SeriesScoreSingle` | scripts/aggregate_results.py:188 | a lone numeric time gets no series score |
| `Speed.CombinedSpeedInRange` | scripts/aggregate_results.py:213-217 | S exists exactly when both normalized scores do, and lies in 0..100 when they do |
| `Speed.CombinedSpeedExample` | scripts/aggregate_results.py:216-217 | TTFR 80 and TTFC 60 give S = 68 |
| `Speed.SpeedKnownIff` | scripts/aggregate_results.py:162-217 | a freshly scored record gets S exactly when both its times are numbers and each series of its cohort has at least two numeric times; S then lies in 0..100 |
| `Text.Strip` | scripts/aggregate_results.py:241 | definition: `str.strip()` as front and back trimming of whitespace (properties in `Text.StripSpec`) |
| `Text.TrimStartSpec` | scripts/aggregate_results.py:241 | stripping the front removes exactly the leading whitespace |
| `Text.TrimEndSpec` | scripts/aggregate_results.py:241 | stripping the back removes exactly the trailing whitespace |
| `Text.StripSpec` | scripts/aggregate_results.py:241 | `strip()` gives a slice of the input with only whitespace around it, and the slice neither starts nor ends with whitespace |
| `Text.StripKeeps` | scripts/aggregate_results.py:241 | a string that neither starts nor ends with whitespace strips to itself |
| `Text.StripIdempotent` | scripts/aggregate_results.py:241 | stripping twice is stripping once |
| `Text.StripAllSpace` | scripts/aggregate_results.py:241 | a whitespace-only string strips to the empty string |
| `Text.IsSpace` | scripts/aggregate_results.py:241 | definition: the characters `str.strip()` removes, those for which Python's `str.isspace` holds (properties in `Text.StripSpec`, `Text.StripAllSpace`) |
| `Text.LexLess` | scripts/aggregate_results.py:260 | definition: Python's `<` on strings, by code point with a proper prefix first, the order `sorted` uses (properties in `Text.LexIrreflexive`, `Text.LexAsymmetric`, `Text.LexTransitive`, `Text.LexTotal`) |
| `Text.LexIrreflexive` | scripts/aggregate_results.py:260 | no string sorts before itself |
| `Text.LexAsymmetric` | scripts/aggregate_results.py:260 | two strings never each sort before the other |
| `Text.LexTransitive` | scripts/aggregate_results.py:260 | string order is transitive |
| `Text.LexTotal` | scripts/aggregate_results.py:260 | of two distinct strings one sorts first |
| `Text.Insert` | scripts/aggregate_results.py:260 | inserting into a sorted list keeps it sorted and adds exactly the new element |
| `Text.SortedUnique` | scripts/aggregate_results.py:260 | two sorted lists with the same elements are the same list |
| `Report.VersionText` | scripts/aggregate_results.py:241 | definition: `ri.get('tool_version', '')`, the version or the empty string when it is missing (properties in `Report.ToolKeyWithVersion`, `Report.ToolKeyWithoutVersion`) |
| `Report.ToolKey` | scripts/aggregate_results.py:241 | definition: name, a space and the version (empty when missing), stripped (properties in `Report.ToolKeyWithVersion`, `Report.ToolKeyWithoutVersion`) |
| `Report.Place` | scripts/aggregate_results.py:242-247 | definition: one pairing step; run 1 and run 2 overwrite their slot of the tool, other run numbers leave the map unchanged |
| `Report.ToolSlotsOf` | scripts/aggregate_results.py:237-247 | definition: the pairing loop as a fold of `Report.Place` over the cohort (properties in `Report.ToolSlotsLastWins`, `Report.ToolSlotsSound`) |
| `Report.ToolKeyWithVersion` | scripts/aggregate_results.py:241 | a tool whose name does not start with whitespace and whose non-empty version does not end with whitespace is keyed "name version" |
| `Report.ToolKeyWithoutVersion` | scripts/aggregate_results.py:241 | a tool with no version, or an empty one, whose non-empty name neither starts nor ends with whitespace is keyed by its name alone |
| `Report.BuildToolSlots` | scripts/aggregate_results.py:237-247 | the pairing loop builds the slot map `ToolSlotsOf` of the group |
| `Report.LastRunNone` | scripts/aggregate_results.py:239-247 | a tool has no run n slot exactly when the group has no run n of it |
| `Report.LastRunSome` | scripts/aggregate_results.py:239-247 | a filled slot holds a run n of the tool with no later run n of it in the group |
| `Report.ToolSlotsLastWins` | scripts/aggregate_results.py:237-247 | a tool is present exactly when it has a run 1 or a run 2, and its slots hold the last of each |
| `Report.ToolSlotsSound` | scripts/aggregate_results.py:237-247 | every tool has a filled slot, and its slots hold its own runs 1 and 2 from the group |
| `Report.DuplicateRunOverwrites` | scripts/aggregate_results.py:244-245 | a later run 1 of the same tool replaces an earlier one |
| `Report.OtherRunDropped` | scripts/aggregate_results.py:242-247 | a run numbered other than 1 or 2 leaves the slots unchanged |
| `Report.ReportId` | scripts/aggregate_results.py:250 | definition: "{spec}-Model{model}-{api}-Comparison" |
| `Report.ReportIdInjective` | scripts/aggregate_results.py:250 | report ids of different cohorts differ when spec references have equal length and model names hold no '-' |
| `Report.TimingCell` | scripts/aggregate_results.py:279-296 | definition: "N/A" for a missing run, "Unknown" for a missing `minutes` value, the value otherwise (stated in `Report.ReportRowTimings`) |
| `Report.PickScores` | scripts/aggregate_results.py:299-310 | definition: run 1's score set when there is a run 1, else run 2's, else "Unknown" throughout |
| `Report.RowOf` | scripts/aggregate_results.py:269-310 | definition: the row of a tool, with identity columns from run 1 or else run 2 (properties in `Report.ReportRowScores`, `Report.ReportRowTimings`) |
| `Report.DetailOf` | scripts/aggregate_results.py:321-324 | definition: the files of a tool's run 1 and run 2, where present |
| `Report.ReportRowScores` | scripts/aggregate_results.py:238-310 | in a cohort's report, each tool's row carries the scores of the tool's last run 1 in the cohort; a tool without a run 1 has a run 2, and then the row carries that run's scores |
| `Report.ReportRowTimings` | scripts/aggregate_results.py:238-297 | in a cohort's report, each tool's run-1 and run-2 timing cells are those of its last run 1 and last run 2 in the cohort, and "N/A" for a run the tool lacks |
| `Report.RowPrefersUnknownRun1` | scripts/aggregate_results.py:303-310 | an "Unknown" overall of run 1 wins over a numeric overall of run 2 |
| `Report.SortedNames` | scripts/aggregate_results.py:260 | the tool names come out strictly sorted, each exactly once |
| `Report.BuildRows` | scripts/aggregate_results.py:269-314 | one row per tool, in sorted order, each the row of that tool's slots |
| `Report.BuildDetails` | scripts/aggregate_results.py:316-325 | one detail entry per tool, in sorted order, naming the files of its run 1 and run 2 |
| `Report.ComparisonReportUnique` | scripts/aggregate_results.py:253-325 | a cohort's report is fully determined by its records |
| `Report.GenerateComparisonReport` | scripts/aggregate_results.py:232-325 | the report carries the cohort's id and fields, the sorted tool list, and for each tool its row and its detail entry |
| `Pipeline.Kept` | scripts/aggregate_results.py:373-375 | definition: no filter or an empty one keeps every record, otherwise only those of that spec reference |
| `Pipeline.Selected` | scripts/aggregate_results.py:369-375 | the parsed records that pass the filter, in file order; every one of them passes it |
| `Pipeline.SelectedMembers` | scripts/aggregate_results.py:369-380 | a record is kept exactly when it parsed and passes the spec-version filter |
| `Pipeline.UnfilteredKeepsAll` | scripts/aggregate_results.py:373-375 | without a filter, or with an empty one, every parsed record is kept, in order |
| `Pipeline.ScoreRecord` | scripts/aggregate_results.py:378-379 | a record's scores become those of its metrics |
| `Pipeline.ScoreResults` | scripts/aggregate_results.py:368-380 | the kept records are selected in file order and each carries `calculate_scores` of its metrics; the other records are untouched |
| `Pipeline.ReportAll` | scripts/aggregate_results.py:390-394 | there is one report per cohort that occurs, and each is that cohort's report |
| `Pipeline.Aggregate` | scripts/aggregate_results.py:367-394 | every kept record carries `calculate_scores` of its metrics with S from its own cohort, each cohort gets its report, and a record the filter drops keeps its scores and normalized values |

## Left out

- File and directory handling, argument parsing, messages and exit codes
  (lines 330-365, 382-384, 396) are not modelled. The result files arrive as
  a list in which a file that did not parse or validate is missing.
- `load_schema`, `parse_result_file` and JSON Schema validation are not
  modelled. JSON documents become `Metrics` and `RunIdentity` values.
- Writing the report as markdown (lines 253-267, 312-314, 319-325) is not
  modelled. The report is a structured value holding the same fields, rows
  and entries, in the same order.
- The `evaluation_window` timestamp from the clock (line 259) is not
  modelled.
- Values.Round1: numbers are exact reals rather than binary floating point,
  and halves are rounded up where Python's `round` rounds them to even. The
  proved monotonicity, range bounds and fixed whole numbers and tenths do not
  depend on how halves go.
- Values.Round1Near: its strict lower bound `x - 0.05 < Round1(x)` holds only
  because halves round up. Under Python's rounding of halves to even,
  `round(0.25, 1)` is 0.2, which is exactly `x - 0.05`.
- Booleans are not modelled. JSON `true`/`false` counts as a number in
  Python's `isinstance(v, (int, float))`, and the value model has no booleans.
- A `tool_version` holding JSON null is not modelled. The code would print it
  as "None"; the model treats an optional version as present or missing.
- A result whose `ttfr` or `ttfc` block is missing, or whose `acceptance` is
  not an object, is not modelled. The code would raise an exception; the
  model takes each such value directly as a `Val`.
- A result without `result_data.scores` is not modelled. The code raises a
  KeyError at line 379, which ends the whole run; every `Record` has a score
  set.
- A result missing `spec_reference`, `target_model`, `api_style`, `tool_name`
  or `run_number` is not modelled. The code raises a KeyError at lines
  168-169, 225-226 or 240-242, which ends the whole run; every `RunIdentity`
  has all of these fields. When no schema file exists (lines 352-356) nothing
  rejects such a result beforehand.
- A `run_number` that is not an integer is not modelled. The code compares it
  with `==` (lines 244-246), so a JSON `1.0` is placed as run 1 and a string
  `"1"` is dropped; `runNumber` is an `int`.
- The order in which cohorts and reports are visited (dictionary order) is not
  modelled. The model processes cohorts in an arbitrary order and proves that
  its map of reports, keyed by cohort, does not depend on it; the files the
  program writes do depend on it when two report ids collide (see "Report ids
  can collide" above).
