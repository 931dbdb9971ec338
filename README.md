# soccer_agent statistics and prediction core, in Dafny

This project models the numerical core of the soccer_agent repository.

- `src/data_collector.py`: `StatsBombDataCollector` turns one player's StatsBomb event table into:
  - basic statistics (passes, shots, carries, pressures, substitution, playing time);
  - per-period statistics;
  - advanced metrics (pass-length buckets, progressive actions, pressing, aerial duels, crosses, key passes, shot zones, possessions, per-quarter activity, actions under pressure, set pieces);
  - summary insights (performance score, trend between halves, key strengths).

  It also folds a list of per-match analyses into career aggregates and a per-competition breakdown.
- `src/ml_predictor.py`: the bookkeeping of `PlayerPerformancePredictor`. This covers:
  - the hand-written performance score that serves as the training target;
  - how training samples are collected and the best of three regressors is chosen;
  - how the fitted model, the scaler and the feature columns are stored;
  - the guard sequence of a prediction;
  - the alignment of a feature frame to the trained columns;
  - the age curve of the future-performance projection;
  - the ranking of feature importances;
  - the confidence measure.

The model is organised by module:

| file | module | what it holds |
|---|---|---|
| `wrappers.dfy` | `Wrappers` | `Option` and `Result` |
| `sequences.dfy` | `Sequences` | boolean-mask selection (`Filter`, `Count`), `Sum`, `Min`, `Max` |
| `grouping.dfy` | `Grouping` | `unique()` in first-appearance order (`Distinct`), group sizes and group totals |
| `decimal.dfy` | `Decimal` | decimal numerals, as read by `int()` on digit strings |
| `events.dfy` | `Events` | the event row, the table with its optional columns, masks, the guarded ratio |
| `match_clock.dfy` | `MatchClock` | `str.split` and the two timestamp parsers |
| `player_statistics.dfy` | `PlayerStatistics` | `calculate_player_statistics`, `calculate_period_statistics` |
| `advanced_metrics.dfy` | `AdvancedMetrics` | `calculate_advanced_metrics` |
| `summary_insights.dfy` | `SummaryInsights` | `generate_summary_insights`, `calculate_comprehensive_player_analysis` |
| `career.dfy` | `Career` | `calculate_career_aggregates`, `calculate_competition_breakdown` |
| `predictor.dfy` | `Predictor` | `PlayerPerformancePredictor` and its helpers |

Representation choices:

- **Event table.** A pandas DataFrame is a `Table`. It holds a sequence of `Event` rows and the set of optional column names whose presence the code tests with `'name' in df.columns`.
- **Missing values.** A NaN cell is `None`, and comparisons with NaN are false.
- **Numbers.** Floats are exact reals.
- **Dictionaries.**
  - Statistics dictionaries are datatypes with `Option` fields for keys that may be absent.
  - The per-match dictionaries read by the career functions are `map<string, real>` read with a default of 0, as `.get(key, 0)` does.
- **Loops.** Loops of the source (the progressive-action and pressure loops, the quarter buckets, the per-period table, the career and competition folds, the training-data collection, the projection loop, column padding) are methods with loop invariants. Each is proved equal to a recursive function, and the lemmas are about that function.
- **Predictor.** `PlayerPerformancePredictor` is a class whose methods update its fields:
  - `models` as a map;
  - `scalers` and `label_encoders` as key sets;
  - `feature_columns` as a sequence.

  Its invariant says that a stored model always comes with a stored scaler, and that no label encoder is ever stored.

## Model

| member | source | states |
|---|---|---|
| Decimal.ParseNat | src/data_collector.py:139-148 | a field parses exactly when it is a non-empty string of ASCII digits, and then reads as the value of those digits |
| Decimal.LeadingZero | src/data_collector.py:139-148 | a leading zero does not change a field's value, so zero-padded fields read as their number |
| Decimal.ParseShow | src/data_collector.py:139-148 | reading back the decimal numeral of n gives n |
| Decimal.ShowInjective | src/ml_predictor.py:275 | distinct numbers have distinct numerals |
| MatchClock.Split | src/data_collector.py:137 | `split(':')` yields at least one field and no field contains the separator |
| MatchClock.JoinSplit | src/data_collector.py:137 | joining the fields with the separator gives back the timestamp text |
| MatchClock.SplitLength | src/data_collector.py:137-138 | the number of fields is one more than the number of separators |
| MatchClock.SecondsField | src/data_collector.py:141-148 | a seconds field without '.' is accepted exactly when it is a numeral; one with '.' exactly when it splits into two numerals |
| MatchClock.ClockFields | src/data_collector.py:137-148 | for numeral fields, zero-padded or not, the three fields of "H:M:S[.F]" followed by nothing or further ':' fields read as the values of their digits |
| MatchClock.TimestampOfClockText | src/data_collector.py:135-155 | for any numeral fields, zero-padded or not, "H:M:S[.F]" followed by nothing or further ':' fields reads H·3600 + M·60 + S + F/10^6 |
| MatchClock.PeriodTimestampOfClockText | src/data_collector.py:220-239 | the period clock reads the same text as M·60 + S + F/10^6 |
| MatchClock.ZeroPaddedClock | src/data_collector.py:135-155 | the zero-padded clock "00:12:34.567" reads 754.000567 s in both parsers |
| MatchClock.FractionCountsMicroseconds | src/data_collector.py:143-149 | the fraction counts microseconds whatever its width: "0:0:1.5" reads 1.000005 s |
| MatchClock.TooFewFieldsReadsZero | src/data_collector.py:137-153 | a text with fewer than two ':' reads 0 in both parsers |
| MatchClock.NonNumeralFieldReadsZero | src/data_collector.py:137-155 | a malformed hours, minutes or seconds field (fraction included) makes the full reading 0, and a malformed minutes or seconds field makes the period reading 0 (the exception path) |
| MatchClock.ExtraDotReadsZero | src/data_collector.py:143-155 | a seconds field with two or more '.' fails to unpack and reads 0 in both parsers |
| MatchClock.PeriodIgnoresHours | src/data_collector.py:222-236 | the period clock never reads the hours field |
| MatchClock.FullReadingAddsHours | src/data_collector.py:135-155 | the full reading is hours·3600 plus the period reading, and both are 0 together |
| Events.RatioBounds | src/data_collector.py:73 | a guarded success ratio lies in [0,1]; it is 1 exactly when all succeed, 0 exactly when none do, and times the total it gives the successes |
| Grouping.Distinct | src/data_collector.py:211 | `unique()` holds every key of the input, only those, and each once |
| Grouping.DistinctInFirstAppearanceOrder | src/data_collector.py:211 | `unique()` lists keys in the order of their first appearance |
| Grouping.GroupSizesCoverInput | src/data_collector.py:211-212 | the groups of the distinct keys together hold every row exactly once |
| Grouping.GroupTotalsCoverInput | src/data_collector.py:808-842 | per-key totals over the distinct keys add up to the overall total |
| PlayerStatistics.PassStatistics | src/data_collector.py:68-73 | pass statistics exist exactly when there is a pass; completed (no outcome) and incomplete passes are counted from the pass rows, together at most the total; accuracy lies in [0,1], is 1 exactly when every pass is completed and 0 exactly when none is |
| PlayerStatistics.ShotStatistics | src/data_collector.py:87-91 | shot statistics exist exactly when there is a shot; only goals count as on target; accuracy lies in [0,1], is 1 exactly when every shot is a goal and 0 exactly when none is |
| PlayerStatistics.PlayingTimeOf | src/data_collector.py:157-166 | with fewer than two rows the playing time is empty and 0; otherwise it spans min to max; the rate is actions per minute of span and is positive exactly when the span is |
| PlayerStatistics.TimeSpan | src/data_collector.py:159-166 | the span of a list of clock readings and the actions-per-minute rate over it |
| PlayerStatistics.CalculatePlayerStatistics | src/data_collector.py:49-193 | names from the first row; pass and shot blocks; carries and pressures present exactly when such a row exists; substituted exactly when a substitution row exists; playing time exactly when timestamps exist |
| PlayerStatistics.PeriodTimingOf | src/data_collector.py:216-251 | a 45-minute period: first and last clock reading, minutes played, actions per minute positive exactly when minutes played are |
| PlayerStatistics.CalculatePeriodStatistics | src/data_collector.py:195-253 | names; no periods without a period column; otherwise one entry per distinct period |
| PlayerStatistics.PeriodEntriesFor | src/data_collector.py:211-251 | the per-period loop builds exactly the specified entry table |
| PlayerStatistics.PeriodEntriesAt | src/data_collector.py:211-213 | the i-th entry describes the i-th distinct period, computed over that period's rows |
| PlayerStatistics.PeriodsPartitionRows | src/data_collector.py:211-212 | the period groups together hold every row exactly once |
| PlayerStatistics.PeriodEntriesAreDistinct | src/data_collector.py:211 | every row's period is listed, and no period is listed twice |
| AdvancedMetrics.TallyOf | src/data_collector.py:324-329 | a tally exists exactly for a non-empty group; successes ≤ total; the rate lies in [0,1], times the total it gives the successes, and it is 0 or 1 exactly at the extremes |
| AdvancedMetrics.LengthBucket | src/data_collector.py:268-289 | a pass-length bucket exists exactly when the column exists and some pass falls in it; it counts those passes |
| AdvancedMetrics.PassBucketsPartition | src/data_collector.py:268-289 | short, medium and long buckets are disjoint and together count every pass with a known length |
| AdvancedMetrics.ProgressiveActions | src/data_collector.py:292-302 | the loop counts the progressive passes and carries and sums their forward gain |
| AdvancedMetrics.DistanceGainedBound | src/data_collector.py:299-302 | the distance gained exceeds 5 m per progressive action, and is 0 when there is none |
| AdvancedMetrics.ProgressionOf | src/data_collector.py:292-306 | progression exists exactly when all four coordinate columns exist; its count and distance are those of the loop |
| AdvancedMetrics.PressuresNeverSucceed | src/data_collector.py:309-317 | no pressure row is ever counted as successful |
| AdvancedMetrics.PressureOf | src/data_collector.py:309-317 | pressure effectiveness exists exactly when there is a pressure; its success count and rate are always 0 |
| AdvancedMetrics.PressureEffectiveness | src/data_collector.py:309-317 | the pressure loop computes the specified pressure block |
| AdvancedMetrics.AerialDuelsOf | src/data_collector.py:339-346 | aerial duels exist exactly when the duel column exists and an aerial duel does; they count those duels |
| AdvancedMetrics.CrossesOf | src/data_collector.py:349-355 | crosses exist exactly when the cross column exists and a crossed pass does; they count those passes, at most the pass count |
| AdvancedMetrics.FlaggedPasses | src/data_collector.py:358-364 | key passes and assists exist exactly when the column exists and there are passes; the count is at most the pass count |
| AdvancedMetrics.ShotZonesOf | src/data_collector.py:367-373 | shot zones exist exactly when there are shots and coordinates; inside and outside the box split the shots with a known x |
| AdvancedMetrics.PossessionOf | src/data_collector.py:381-384 | possession statistics exist exactly when the column exists; they count distinct possessions and actions per possession |
| AdvancedMetrics.QuarterCountsOf | src/data_collector.py:415-430 | the four quarter buckets of a period count exactly that period's rows |
| AdvancedMetrics.QuarterBuckets | src/data_collector.py:387-430 | no buckets without timestamp and period columns; otherwise one row of buckets per distinct period |
| AdvancedMetrics.QuarterTableFor | src/data_collector.py:415-430 | the per-period loop builds exactly the specified bucket table |
| AdvancedMetrics.QuarterTableSizes | src/data_collector.py:415-430 | the buckets of a list of periods hold as many rows as those periods' groups |
| AdvancedMetrics.QuarterBucketsCoverRows | src/data_collector.py:415-430 | all buckets together hold every row exactly once |
| AdvancedMetrics.UnderPressureOf | src/data_collector.py:437-446 | statistics under pressure exist exactly when some row is under pressure; their passes are the passes among those rows |
| AdvancedMetrics.AdvancedMetricsOf | src/data_collector.py:255-452 | names; pressure success always 0; recoveries plus fouls, defensive actions and set pieces bounded by the rows; dribble block exactly when there are dribbles |
| AdvancedMetrics.CalculateAdvancedMetrics | src/data_collector.py:255-452 | the method computes the specified advanced metrics |
| SummaryInsights.PerformanceScore | src/data_collector.py:492-496 | a score exists exactly when passes and playing time do; it is at most 1; it is the full 1 for perfect accuracy, 10+ actions per minute and 20+ progressive actions; without progressive actions it is at most 0.7 |
| SummaryInsights.PerformanceTrend | src/data_collector.py:510-521 | a trend exists exactly when there are two periods, each with passes; "Improved" above +20%, "Declined" below −20%, otherwise "Consistent" |
| SummaryInsights.ChangeThresholds | src/data_collector.py:515-521 | a relative change above +20% means 5·p2 > 6·p1; below −20% means 5·p2 < 4·p1 |
| SummaryInsights.KeyStrengths | src/data_collector.py:524-532 | each strength is listed exactly when its threshold is passed; only these three labels appear, each at most once, in source order |
| SummaryInsights.GenerateSummaryInsights | src/data_collector.py:475-534 | insights carry the names, the score, the trend and the strengths of the analysis |
| SummaryInsights.CalculateComprehensivePlayerAnalysis | src/data_collector.py:454-473 | the analysis bundles the three statistics, and the insights are generated from it |
| SummaryInsights.NeverEffectivePressing | src/data_collector.py:529-530 | "Effective pressing" can never be a key strength, since pressure success is always 0 |
| SummaryInsights.ScoreInUnitInterval | src/data_collector.py:492-496 | the score of any analysed table lies in [0,1] |
| Career.ZerosAreEmptySums | src/data_collector.py:695-723 | the initial all-zero totals are the sums over no matches |
| Career.AddMatch | src/data_collector.py:725-755 | adding one match keeps the set of aggregated keys |
| Career.AccumulatedSnoc | src/data_collector.py:725-755 | the totals after one more match are the previous totals plus that match's contributions |
| Career.Scores | src/data_collector.py:758-759 | one performance score is collected per match that has one |
| Career.Mean | src/data_collector.py:795 | the mean lies between the minimum and the maximum |
| Career.MostCommon | src/data_collector.py:788-791 | the most common style occurs in the list and no style occurs more often; ties go to the first to appear |
| Career.BestIndex | src/data_collector.py:788-791 | the chosen key has the highest count, and every earlier key has a strictly lower one |
| Career.RateIfPositive | src/data_collector.py:778-785 | a career rate exists exactly when its denominator total is positive |
| Career.FinishCareer | src/data_collector.py:766-795 | averages are totals per match; each career rate exists exactly when its total is positive; the most common style and the average score exist exactly when there is data, and the average lies within the scores |
| Career.CareerOf | src/data_collector.py:688-797 | career aggregates exist exactly for a non-empty list of matches |
| Career.CareerTotalsAreSums | src/data_collector.py:725-755 | each career total is the sum of that metric over all matches |
| Career.CalculateCareerAggregates | src/data_collector.py:688-797 | the loop computes the specified aggregates; total matches is the list length; one score per scored match |
| Career.RunningSnoc | src/data_collector.py:831-845 | a competition's running totals after one more match add that match's contributions |
| Career.FinishCompetition | src/data_collector.py:848-864 | per-competition averages are totals per match; rates exist exactly when their totals are positive; the average score lies within the scores |
| Career.BreakdownOf | src/data_collector.py:799-866 | a breakdown exists exactly for a non-empty list; it lists competitions in first-appearance order and has an entry for exactly those |
| Career.CollectStep | src/data_collector.py:808-845 | one loop step keeps the invariant: first-appearance order of competitions and running totals per competition |
| Career.AddAnalysis | src/data_collector.py:808-845 | one step appends a new competition to the order and updates only that competition's running totals |
| Career.CollectCompetitions | src/data_collector.py:808-845 | the loop collects every competition and its running totals |
| Career.FinishCompetitions | src/data_collector.py:848-864 | every collected competition, and only those, gets its finished entry |
| Career.CalculateCompetitionBreakdown | src/data_collector.py:799-866 | the method computes the specified breakdown |
| Career.BreakdownEntries | src/data_collector.py:799-866 | the collected and finished entries form exactly the specified breakdown |
| Career.MatchesOverGroups | src/data_collector.py:831 | match counts of the listed competitions equal their group sizes |
| Career.BreakdownMatchesCoverInput | src/data_collector.py:808-831 | the per-competition match counts add up to the number of matches |
| Career.TotalOverGroups | src/data_collector.py:832-842 | per-competition totals of the listed competitions equal their group totals |
| Career.BreakdownTotalsAddUpToCareer | src/data_collector.py:832-842 | the per-competition totals of a metric add up to its career total |
| Predictor.CalculatePerformanceScore | src/ml_predictor.py:216-249 | the score is the weighted sum of pass, shot, dribble and defensive ratios, and lies in [0,1) |
| Predictor.GroupRatioBounds | src/ml_predictor.py:222-236 | each type's success ratio lies in [0,1] |
| Predictor.ScoreBelowOne | src/ml_predictor.py:219-245 | the performance score lies in [0,1): a full defensive term rules out passes, shots and dribbles |
| Predictor.AllDefensive | src/ml_predictor.py:239-243 | when every row is defensive there are no passes, shots or dribbles |
| Predictor.AgeFactorNonIncreasing | src/ml_predictor.py:262-272 | the age factor, clamped or not, never rises with age |
| Predictor.AgeFactorAroundPeak | src/ml_predictor.py:257-267 | the age factor is above 1 exactly up to age 27 and below 1 exactly from age 28 |
| Predictor.Clamp | src/ml_predictor.py:272 | the clamped factor lies in [0.1, 1.5] and is unchanged when already inside it |
| Predictor.YearKeysDistinct | src/ml_predictor.py:275 | different years get different "year_N" keys |
| Predictor.YearEntry | src/ml_predictor.py:261-279 | the entry of year N has key "year_N", age age+N and a factor in [0.1, 1.5] |
| Predictor.ProjectsOneMore | src/ml_predictor.py:259-279 | one more loop iteration appends the next year's entry |
| Predictor.PredictFuturePerformance | src/ml_predictor.py:251-281 | one entry per year ahead (none for a non-positive horizon), the k-th for year k+1 |
| Predictor.ProjectionProperties | src/ml_predictor.py:259-279 | each prediction is current performance times a factor in [0.1, 1.5], at the right age, and all year keys are distinct |
| Predictor.DeclineAfterPeak | src/ml_predictor.py:262-272 | from age 28 on, with a neutral random draw, the projected factor is below 1 |
| Predictor.Zeros | src/ml_predictor.py:181-183 | a filler column has the frame's height and holds zeros |
| Predictor.PaddedProperties | src/ml_predictor.py:181-183 | padding keeps the shape and existing cells, provides every trained column, and fills only missing trained columns with zeros |
| Predictor.AlignColumns | src/ml_predictor.py:181-183 | the padding loop builds exactly the specified padded frame |
| Predictor.SelectColumns | src/ml_predictor.py:185 | selection yields exactly the trained columns in trained order, with their cells |
| Predictor.AlignedFeatures | src/ml_predictor.py:181-185 | the aligned frame has exactly the trained columns; each holds the original cells or zeros when the column was missing |
| Predictor.NonZeroCellsBound | src/ml_predictor.py:299-300 | there are at most as many non-zero cells as cells |
| Predictor.Confidence | src/ml_predictor.py:299-303 | confidence lies in [0,1]; it is 0 exactly when no cell is non-zero; it saturates at 1 exactly when 5/6 of the cells are non-zero |
| Predictor.ConfidenceThreshold | src/ml_predictor.py:302-303 | completeness·1.2 stays below 1 exactly when fewer than 5/6 of the cells are non-zero |
| Predictor.PredictionConfidence | src/ml_predictor.py:295-307 | the confidence of a frame lies in [0,1]; it is 0 exactly when every cell is zero; it is 1 exactly when at least 5/6 of the cells are non-zero |
| Predictor.Zip | src/ml_predictor.py:287 | `zip` pairs names and importances position by position, as long as the shorter list |
| Predictor.Put | src/ml_predictor.py:287 | storing a pair adds its key; a new key is appended at the end |
| Predictor.PutDistinct | src/ml_predictor.py:287 | storing keeps the dictionary's keys distinct |
| Predictor.DictItems | src/ml_predictor.py:287 | the dictionary of the pairs has distinct keys, and exactly the keys of the pairs |
| Predictor.DictItemsOfDistinct | src/ml_predictor.py:287 | pairs with distinct keys pass through the dictionary unchanged |
| Predictor.Insert | src/ml_predictor.py:288 | inserting adds exactly one item |
| Predictor.InsertSorted | src/ml_predictor.py:288 | inserting into a list sorted by decreasing importance keeps it sorted |
| Predictor.SortByImportance | src/ml_predictor.py:288 | sorting is a permutation into decreasing importance |
| Predictor.InsertStable | src/ml_predictor.py:288 | insertion places an item behind the items of equal importance |
| Predictor.SortStable | src/ml_predictor.py:288 | the sort is stable: items of equal importance keep their relative order |
| Predictor.FeatureImportance | src/ml_predictor.py:283-293 | no importances gives an empty list; otherwise the items are the dictionary of zipped pairs, sorted by decreasing importance |
| Predictor.FeatureImportanceOfDistinctColumns | src/ml_predictor.py:286-288 | with distinct columns, the ranking is a stable permutation of the zipped pairs |
| Predictor.PrepareFeatures | src/ml_predictor.py:29-82 | feature preparation always answers a well-formed empty frame: the comparison at line 40 raises on an empty Series and the handler returns an empty frame |
| Predictor.PreparedRecordsNeverTrain | src/ml_predictor.py:29-100 | records whose features come from feature preparation never give a usable sample |
| Predictor.GatheredSamples | src/ml_predictor.py:91-100 | one feature row and one target per usable record, in order: the first feature row and the performance score of that record |
| Predictor.TargetsBelowOne | src/ml_predictor.py:97-100 | every training target lies in [0,1) |
| Predictor.CollectTrainingData | src/ml_predictor.py:91-100 | the collection loop gathers exactly the specified samples |
| Predictor.Candidates | src/ml_predictor.py:121-149 | the three candidates are random forest, gradient boosting and linear regression |
| Predictor.BestIndex | src/ml_predictor.py:152 | the best model has the highest R², and ties go to the first candidate |
| Predictor.R2Scores | src/ml_predictor.py:142-159 | the R² report lists each candidate's name and score in candidate order |
| Predictor.PlayerPerformancePredictor.constructor | src/ml_predictor.py:23-27 | a new predictor holds no models, scalers, encoders or feature columns |
| Predictor.PlayerPerformancePredictor.TrainPerformanceModel | src/ml_predictor.py:84-163 | with no usable sample it fails with "Insufficient training data" and changes nothing; otherwise it stores the feature columns, the scaler once scaling succeeds, and the best model with its report only when fitting succeeds |
| Predictor.PlayerPerformancePredictor.PredictPlayerPotential | src/ml_predictor.py:165-214 | the four guards in source order, with their messages; success exactly when all pass; on success the current performance is the model's prediction on the aligned frame, the projection uses age 25 by default, and the confidence is that of the aligned frame |

## Left out

- `src/soccer_agent.py` (`SoccerAgent`, which wires the collector and the predictor to the data sources) is left out. `examples/simple_agent_example.py:28-49` calls `handle_message`, which `src/soccer_agent.py` does not define.
- Network access is left out: `fetch_*`, the StatsBomb open-data loaders (`src/data_collector.py:25-47`, `588-686`), `WebScraper` (`868-918`) and `DataAggregator` (`920-987`). All of these are I/O.
- The command-line interface (`src/cli.py`), `install.py`, `setup.py` and `examples/` only call the core. They are left out.
- Square roots are left out, since reals have no square root here. This covers carry distance (`src/data_collector.py:99-108`).
- Carry time and average carry time (`src/data_collector.py:110-114`) are left out: they sum and average a `duration` column, and the modelled event record has no `duration` field.
- Averages and ranges of the location columns (`77`, `125-129`, `371`) are left out.
- `value_counts` tables (`80-84`, `117-122`, `376-378`) are left out, because they only report frequencies.
- These copied fields have no effect on any computed statistic and are left out: formation, match id, position and `replaced_by` (`178`, `183-191`).
- SummaryInsights.GenerateSummaryInsights: omits `playing_style` (`499-507`), because it depends on `avg_pass_distance`, a mean that is left out (`77`). The career functions take each match's style as an input (`Career.MatchAnalysis.playingStyle`), which `calculate_career_aggregates` collects (`759-761`) and reports as the most common style (`788-791`).
- `prepare_features` (`src/ml_predictor.py:29-82`) always fails at line 40 and returns an empty frame. Line 40 tests a Series comparison with `if`, and its frame starts empty. So in the source, training always answers "Insufficient training data". Prediction for a non-empty career always answers "Could not prepare features". `Predictor.PrepareFeatures` models this as written, and `Predictor.PreparedRecordsNeverTrain` proves the training consequence. The training and prediction methods still take the feature frame as an input, so they over-approximate these paths: they also describe what happens with a non-empty frame. The position encoder (`67-72`) is never stored.
- The scikit-learn split, scaling, fitting and prediction are the `fit` and `predict` parameters.
- The `joblib` save and load (`309-332`) are left out, because they are file I/O.
- `np.random.normal` in the projection is the `draw` parameter, one draw per year.
- Floating-point rounding is left out, because arithmetic is exact over the reals.
- pandas builds the training frame's columns from a union of dictionary keys. The model assumes that union keeps first-appearance order.
- Scalers and label encoders are kept as sets of their keys. Their fitted contents are opaque.
- `StandardScaler.transform` inside a prediction is part of the `predict` parameter.
- MatchClock.TimestampToSeconds: only fields made of ASCII digits parse. Python's `int()` would also accept surrounding whitespace, a sign, underscores and non-ASCII digits, and here such fields read as 0.
- Predictor.PlayerPerformancePredictor.PredictPlayerPotential: exceptions raised inside scaling or prediction are not modelled. The source would return `{'error': str(e)}` for them.
- Predictor.PlayerPerformancePredictor.TrainPerformanceModel: the source has a catch-all exception handler. The model keeps only its outcomes through `FitOutcome`:
  - a scaling failure happens before the scaler is stored;
  - a fitting failure happens after it.

  Exceptions from other places, such as a missing column in a record, are not modelled.
- A missing column read unconditionally raises `KeyError` in the source. Examples are `type_name`, `outcome_name` and `under_pressure`. The model assumes these columns are present.
- The pressure success count is always 0. `calculate_advanced_metrics` counts a pressure as successful when the next row of the pressure selection is a ball recovery or an interception, and every row of that selection is a pressure (`src/data_collector.py:309-317`). The model keeps that behaviour and proves it (`AdvancedMetrics.PressuresNeverSucceed`).
