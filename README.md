# GLAM simulator and descriptive-statistic helpers, in Dafny

This project models the Gaze-weighted Linear Accumulator Model (GLAM) simulator of
`glambox/simulation.py` and the descriptive-statistic column helpers of `glam/plots.py`,
and proves what those functions promise about their results.

- `common.dfy` (module `Common`): `Option`/`Result`, the failure causes, an extended real
  `Ext` (NaN, the two infinities, finite values) with IEEE-style quotient and square, NaN-propagating
  minimum (`np.min`), first-index arg-min (`np.argmin`), maximum, sum and mean.
- `random.dfy` (module `RandomSource`): the random stream as an `Oracle` value (unit draws in
  [0, 1), item picks below a bound, inverse-Gaussian draws) read at an explicit stream position,
  and numpy's `uniform(lo, hi) = lo + (hi - lo) * u`.
- `evidence.dfy` (module `EvidenceRate`): `make_R`: attention-weighted values, relative evidence
  against the best other item, and the logistic squash, as specification functions plus the
  loop method `MakeR`.
- `trial.dfy` (module `TrialSimulator`): `simulate_trial`: the error/race mixture, one
  first-passage time per item per race attempt, the retry loop and the arg-min choice.
- `subject.dfy` (module `SubjectSimulator`): `simulate_subject`: four preallocated arrays filled
  through a running index in trial-major, repeat-minor order, then the output rows with the
  values and gaze repeated `n_repeats` times (`np.repeat`).
- `predict.dfy` (module `PredictionGenerator`): `predict`: per observed row, first-match
  parameter lookup in the subject's estimates (honouring `depends_on`), the subject's error range
  (min and max observed rt), and `n_repeats` copies of the row with `choice`, `rt` and `repeat`
  replaced.
- `plots.dfy` (module `Plots`): the `add_*` column helpers, the corrected choice-left column with
  its per-subject placing loop, and the gaze-advantage binning; a `Frame` class holds the rows
  and the named columns that the helpers add in place.

Randomness is an input: every simulator takes an `Oracle` and a stream position and returns the
next position, so the same draws give the same result. `exp` is a parameter constrained by
`IsExp` (positive, `exp(0) = 1`, strictly increasing).

## Model

| member | source | states |
|---|---|---|
| Common.Quot | glambox/simulation.py:92-93 | `a / b` is finite exactly when `b` is non-zero, and then equals the real quotient (division by zero gives an infinity or NaN) |
| Common.Div | glambox/simulation.py:94 | the quotient of two finite values with non-zero divisor is their real quotient; a NaN operand gives NaN |
| Common.Sq | glambox/simulation.py:93 | squaring keeps finiteness and is NaN exactly when the argument is |
| Common.Min | glambox/simulation.py:95 | a non-NaN minimum is at most every element |
| Common.MinIsElement | glambox/simulation.py:95 | the minimum is one of the elements, and it is NaN exactly when some element is NaN |
| Common.ArgMin | glambox/simulation.py:101 | the index holds the minimum and no earlier index does (first index attaining it) |
| Common.FirstIndexOf | glambox/simulation.py:101 | the first index at which a value occurs |
| Common.MaxOf | glambox/simulation.py:115 | the maximum is at least every element |
| Common.MinOf | glambox/simulation.py:166-167 | the minimum is at most every element |
| Common.MaxMinAreElements | glambox/simulation.py:115 | maximum and minimum are elements of the sequence |
| Common.MeanBounds | glam/plots.py:257 | a mean lies between any lower and upper bound of the elements |
| RandomSource.Uniform | glambox/simulation.py:82 | a uniform draw on `[lo, hi)` lies in `[lo, hi]`, below `hi` when `lo < hi`, and is `lo` when the range is a point |
| EvidenceRate.Squash | glambox/simulation.py:117 | with `v > 0` the rate lies strictly between 0 and `v`; zero relative evidence gives exactly `v / 2` |
| EvidenceRate.MakeR | glambox/simulation.py:107-119 | the loop that fills `R_star` and squashes it returns one rate per item, equal to the rate specification `Rates` |
| EvidenceRate.EvidenceAgainstBestOther | glambox/simulation.py:113-115 | relative evidence is at most the item's lead over every other item and equals its lead over some other item (the best one) |
| EvidenceRate.EvidenceSign | glambox/simulation.py:115 | relative evidence is non-negative iff the item is at least every other item, positive iff it beats every other item |
| EvidenceRate.AtMostOneLeader | glambox/simulation.py:115 | at most one item has positive relative evidence |
| EvidenceRate.TwoItemsOpposite | glambox/simulation.py:113-115 | with two items, `R*_0 = A_0 - A_1 = -R*_1` |
| EvidenceRate.EvidenceFollowsAttention | glambox/simulation.py:115 | an item with a larger attention-weighted value has at least as large relative evidence |
| EvidenceRate.TiedItemsShareEvidence | glambox/simulation.py:110-115 | items with equal attention-weighted values get equal, non-positive relative evidence, zero exactly when they are maximal |
| EvidenceRate.SquashMonotone | glambox/simulation.py:117 | with `v, tau > 0` the squash is strictly increasing in the relative evidence |
| EvidenceRate.RatesBounded | glambox/simulation.py:117 | with `v > 0` every rate of `make_R` lies strictly between 0 and `v` |
| EvidenceRate.RatesFollowAttention | glambox/simulation.py:110-117 | rates are ordered as the attention-weighted values are |
| EvidenceRate.GammaOneIgnoresGaze | glambox/simulation.py:110 | with `gamma = 1` the rates do not depend on gaze |
| EvidenceRate.SymmetricPairHalfRate | glambox/simulation.py:110-117 | two identical items each get rate `v / 2` |
| TrialSimulator.SamplerArgumentsFinite | glambox/simulation.py:92-94 | with non-zero boundary, rate and `s`, the sampler gets `scale = (boundary/s)^2` and mean argument `(boundary/R)/scale`, both finite, and both positive when the inputs are positive |
| TrialSimulator.DrawFirstPassageTimes | glambox/simulation.py:89-94 | the loop draws exactly one first-passage time per item, item `i` from stream position `k + i` with that item's sampler arguments |
| TrialSimulator.SamplerAcceptsExactly | glambox/simulation.py:92-94 | `invgauss.rvs` accepts an item's arguments iff `s != 0` and either the boundary is positive and the rate non-negative or both are negative; so `s = 0`, a zero boundary or a rate against the boundary's sign raises |
| TrialSimulator.PositiveParamsInSamplerDomain | glambox/simulation.py:88-94 | with `v > 0`, a positive boundary and `s != 0` no sampler call of a race raises |
| TrialSimulator.SimulateTrial | glambox/simulation.py:57-104 | the method returns the outcome and next stream position of the mixture specification `Trial`, including the sampler's domain error |
| TrialSimulator.RetryRace | glambox/simulation.py:87-102 | the retry loop returns the outcome of the race specification `Race` |
| TrialSimulator.RaceStepAccepted | glambox/simulation.py:95-102 | an attempt whose minimum is finite and non-negative ends the race with the arg-min item and `min + t0` |
| TrialSimulator.RaceStepRejected | glambox/simulation.py:97-99 | an attempt with a negative or non-finite minimum retries from the next stream position |
| TrialSimulator.WinnerIsFastest | glambox/simulation.py:95-102 | a winning item's time is the minimum, at most every draw, `rt - t0` is that time, `rt >= t0`, and no earlier item has that time |
| TrialSimulator.RaceWinner | glambox/simulation.py:87-102 | a race either stalls or wins on the draws of its last attempt |
| TrialSimulator.RaceBudgetIrrelevant | glambox/simulation.py:87 | once a race succeeds, a larger attempt budget gives the same result |
| TrialSimulator.TrialChoiceInRange | glambox/simulation.py:81-101 | in both branches the choice is an item index |
| TrialSimulator.ErrorBranch | glambox/simulation.py:81-83 | when the first draw is below `error_weight`, the trial answers with an item index and an rt in `[lo, hi]` (below `hi` when `lo < hi`) after three draws |
| TrialSimulator.RaceBranchRtAtLeastT0 | glambox/simulation.py:85-102 | when the first draw is at least `error_weight`, an answer has `rt >= t0` |
| TrialSimulator.NoErrorWeightRtAtLeastT0 | glambox/simulation.py:81-102 | without error weight every answer has `rt >= t0` |
| TrialSimulator.TrialRun | glambox/simulation.py:57-104 | the runner accepts every trial with matching value and gaze lengths and answers as `Trial` |
| TrialSimulator.TrialRunChoosesItem | glambox/simulation.py:81-101 | the concrete runner only ever chooses an item index |
| TrialSimulator.TrialRunAnswersAfterT0 | glambox/simulation.py:102 | without error weight the concrete runner only answers at or after `t0` |
| SubjectSimulator.RepeatEachAt | glambox/simulation.py:51-52 | `np.repeat(xs, n)` has `|xs| * n` entries and entry `k` is `xs[k / n]` |
| SubjectSimulator.SlotTrial | glambox/simulation.py:26-41 | running index `k` belongs to trial `k / n_repeats`, a valid trial |
| SubjectSimulator.Runner | glambox/simulation.py:29-34 | the runner built from `simulate_subject`'s settings accepts every trial whose value and gaze rows have equal length |
| SubjectSimulator.SimulateSubject | glambox/simulation.py:9-54 | the method returns the subject simulation specification `Subject` for the concrete runner |
| SubjectSimulator.FillSubject | glambox/simulation.py:19-54 | the nested loops over preallocated arrays produce exactly `Subject`: the draws in running-index order, laid out as rows |
| SubjectSimulator.ReadRows | glambox/simulation.py:43-52 | reading the filled arrays back gives the row layout `Layout` of the recorded draws |
| SubjectSimulator.FillTrial | glambox/simulation.py:27-41 | the inner loop writes the next `n_repeats` slots and extends the draws as `RunTrials` does, or reports its failure |
| SubjectSimulator.Record | glambox/simulation.py:36-41 | writing slot `running_idx` records the draw, the trial and the repeat, leaving earlier slots as they were |
| SubjectSimulator.RunTrialsLength | glambox/simulation.py:19-41 | a successful run of `count` slots yields `count` draws |
| SubjectSimulator.RunTrialsStops | glambox/simulation.py:26-41 | a failure at some slot is the failure of the whole simulation |
| SubjectSimulator.RunTrialsChoicesInRange | glambox/simulation.py:26-37 | every recorded choice is an item index of its slot's trial |
| SubjectSimulator.SubjectLayout | glambox/simulation.py:19-52 | row `trial * n_repeats + repeat` exists and holds the subject, that trial, that repeat, that trial's values and gaze, and an item index as choice |
| SubjectSimulator.SimulatedChoicesInRange | glambox/simulation.py:26-41 | with the concrete runner, every row's choice is an item index of its trial |
| SubjectSimulator.RunTrialsRtAtLeastT0 | glambox/simulation.py:26-36 | with a runner that answers after `t0`, every recorded rt is at least `t0` |
| SubjectSimulator.SimulatedRtAtLeastT0 | glambox/simulation.py:9-54 | without error weight every simulated row has `rt >= t0` |
| PredictionGenerator.FirstSelected | glambox/simulation.py:159-163 | the first estimate row meeting the condition, or none when no row does |
| PredictionGenerator.ResolvePrefix | glambox/simulation.py:154-163 | a successful lookup of the first `k` parameters gives `k` values, each the lookup of that parameter |
| PredictionGenerator.ResolveParameters | glambox/simulation.py:154-163 | the parameter loop returns `ResolveAll` |
| PredictionGenerator.ResolvePrefixStops | glambox/simulation.py:155-163 | a failed parameter lookup fails the whole parameter vector with the same cause |
| PredictionGenerator.SubjectFirstSelected | glambox/simulation.py:151-163 | looking up in the subject's estimates finds nothing iff no estimate row has that subject and meets the condition, and otherwise finds the first such row |
| PredictionGenerator.ResolveIsFirstMatch | glambox/simulation.py:151-163 | a lookup fails with `MissingCondition` iff the row lacks the dependency column, with `MissingEstimate` iff no estimate row of the subject meets the condition, and otherwise returns the parameter of the first such row |
| PredictionGenerator.ResolveAllFields | glambox/simulation.py:154-163 | the parameter vector resolves iff each of `v, gamma, s, tau, t0` does, and then holds those five values |
| PredictionGenerator.ResolvePrefixComplete | glambox/simulation.py:154-163 | if every parameter resolves, the vector resolves |
| PredictionGenerator.ResolvePrefixFirstFailure | glambox/simulation.py:154-163 | a failed vector names the failure of the first parameter that fails, all earlier ones resolving |
| PredictionGenerator.SubjectRtsMembers | glambox/simulation.py:166-169 | the subject's rts are exactly the rts of the subject's observed rows |
| PredictionGenerator.ErrorRangeBounds | glambox/simulation.py:165-170 | the error range is `(min, max)` of the subject's observed rts: both ends are rts of that subject, and every such rt, including the row's own, lies between them |
| PredictionGenerator.Predict | glambox/simulation.py:122-189 | the method returns the prediction specification `Prediction` for the concrete runner |
| PredictionGenerator.PredictWith | glambox/simulation.py:145-189 | the loop over observed rows returns `Prediction` for any runner |
| PredictionGenerator.PredictRow | glambox/simulation.py:145-187 | one row's iteration extends the prediction of the earlier rows as the specification does |
| PredictionGenerator.AppendRepeats | glambox/simulation.py:175-187 | the repeat loop appends the `n_repeats` rows of `RepeatRows`, or reports the trial's failure |
| PredictionGenerator.RepeatRowsStops | glambox/simulation.py:175-187 | a failed repeat fails the whole group with the same cause |
| PredictionGenerator.PredictRowsStops | glambox/simulation.py:145-187 | a failure at some observed row is the failure of the whole prediction |
| PredictionGenerator.RepeatRowsAt | glambox/simulation.py:175-187 | a group has `n_repeats` rows and row `r` is the source row with `repeat = r` and an item index as choice |
| PredictionGenerator.RepeatRowsLength | glambox/simulation.py:175-187 | a successful group has `n_repeats` rows |
| PredictionGenerator.PredictRowsLength | glambox/simulation.py:145-187 | a successful prediction of `count` rows has `count * n_repeats` rows |
| PredictionGenerator.PredictRowsAt | glambox/simulation.py:145-187 | output row `i * n_repeats + r` is repeat `r` of observed row `i` |
| PredictionGenerator.PlannedLayout | glambox/simulation.py:145-187 | over a row plan, the output has `n_rows * n_repeats` rows and row `i * n_repeats + r` is repeat `r` of observed row `i` with a valid item choice |
| PredictionGenerator.PredictionLayout | glambox/simulation.py:145-187 | a successful prediction has `n_rows * n_repeats` rows, in observed-row then repeat order; each equals its source row except choice, rt and repeat, `repeat = r`, and the choice is an item index |
| PredictionGenerator.PlannedFailureStops | glambox/simulation.py:154-163 | over a row plan, a row whose parameters do not resolve fails the prediction |
| PredictionGenerator.UnresolvedRowFails | glambox/simulation.py:151-163 | if some observed row's parameters cannot be looked up, the prediction fails; no default is substituted |
| Plots.LeftMinusMean | glam/plots.py:152 | `x[0] - mean(x[1:])` is NaN exactly when there is a single item |
| Plots.MaxIndex | glam/plots.py:51 | the index of a maximum value (the last column after sorting) |
| Plots.Difficulty | glam/plots.py:51-52 | maximum minus mean of the rest is NaN exactly when there is a single item |
| Plots.DifficultyNonNegative | glam/plots.py:37-52 | with two or more items the difficulty is finite and non-negative |
| Plots.DifficultyTwoItems | glam/plots.py:38-52 | with two items the difficulty is `abs(v0 - v1)` |
| Plots.LeftMinusMeanTwoItems | glam/plots.py:139-152 | with two items left-minus-mean-others is `x0 - x1` |
| Plots.GazeAdvantageBounded | glam/plots.py:257 | with gazes in `[0, 1]` the left gaze advantage is finite and in `[-1, 1]` |
| Plots.LeftMinusMeanShift | glam/plots.py:152 | adding a constant to every item leaves left-minus-mean-others unchanged |
| Plots.DifficultyColumn | glam/plots.py:50-54 | one difficulty per row |
| Plots.LeftMinusMeanOthersColumn | glam/plots.py:151-154 | one left-minus-mean-others value per row |
| Plots.LeftGazeAdvantageColumn | glam/plots.py:256-259 | one left gaze advantage per row |
| Plots.TableRelativeValueColumn | glam/plots.py:362-364 | one value per row: the row's left value minus the mean of all non-left values of the table (as written) |
| Plots.TableRelativeValueShift | glam/plots.py:362-364 | the as-written column is defined iff the frame has a non-left value; then any two rows differ by the difference of their left values, and they are equal iff their left values are |
| Plots.TableRelativeValueBounds | glam/plots.py:363 | each entry lies between the left value minus the largest and minus the smallest non-left value of the frame |
| Plots.TableRelativeValueNotPerRow | glam/plots.py:349-363 | two binary rows `[1, 0]` and `[0, 1]` get 0.5 for the first row, not `v0 - v1 = 1` |
| Plots.RelativeValueColumn | glam/plots.py:349-350 | one value per row, `v0 - v1` for every two-item row (the documented per-row relative value) |
| Plots.LeftChosenColumn | glam/plots.py:382 | a row is flagged iff its choice is item 0 |
| Plots.GroupMean | glam/plots.py:388-389 | the left-chosen rate of a row's (subject, relative value) group lies in `[0, 1]` |
| Plots.OwnGroup | glam/plots.py:388-389 | every row belongs to its own group, so the group mean is defined |
| Plots.PsychometricColumn | glam/plots.py:388-394 | one group mean per row |
| Plots.CorrectedColumn | glam/plots.py:397-398 | one corrected value per row, each in `[-1, 1]` |
| Plots.CorrectedSumsToZero | glam/plots.py:382-398 | the corrected values of each (subject, relative value) group sum to zero |
| Plots.TableKeysGroupByLeftValue | glam/plots.py:385-389 | grouping by subject and the as-written relative value puts two rows together iff they have the same subject and the same left value |
| Plots.SameGroupSameMean | glam/plots.py:388-394 | rows of the same subject and relative value get the same psychometric value |
| Plots.UniqueSubjects | glam/plots.py:391 | every row's subject occurs, only row subjects occur, and each once |
| Plots.PlaceGroupMeans | glam/plots.py:391-394 | the subject loop gives every row of a listed subject its group mean and leaves other rows NaN |
| Plots.PlacedMeansArePsychometric | glam/plots.py:391-394 | placing for all subjects gives exactly the psychometric column |
| Plots.FlagsMinus | glam/plots.py:397-398 | flag minus value, element-wise |
| Plots.CorrectedIsFlagMinusPsychometric | glam/plots.py:397-398 | left-chosen flag minus the placed psychometric value is the corrected column |
| Plots.EdgeIncreasing | glam/plots.py:304 | the `n_bins + 1` edges of `linspace(-1, 1)` are strictly increasing |
| Plots.EdgeEnds | glam/plots.py:304 | the first edge is -1 and the last is 1 |
| Plots.BinFrom | glam/plots.py:305-306 | the first bin, from a start, whose right edge is at least the value |
| Plots.GazeBin | glam/plots.py:305-307 | a value has no bin exactly when it lies outside `[-1, 1]` |
| Plots.GazeBinUnique | glam/plots.py:305-307 | a value gets bin `k` iff it lies in the right-closed interval `k`, the lowest one closed on the left too |
| Plots.GazeBinEnds | glam/plots.py:306 | -1 goes to the first bin and 1 to the last |
| Plots.BinLabels | glam/plots.py:305-307 | one label per row, present exactly when the advantage is finite and in `[-1, 1]` |
| Plots.Frame.constructor | glam/plots.py:33-56 | a frame over trial rows with no derived columns |
| Plots.Frame.Copy | glam/plots.py:56 | a fresh frame with the same rows and columns |
| Plots.Frame.AddDifficulty | glam/plots.py:33-56 | the frame keeps its rows and columns and gains `difficulty`; the returned copy equals it |
| Plots.Frame.AddLeftMinusMeanOthers | glam/plots.py:134-156 | the frame keeps its rows and columns and gains `left_minus_mean_others`; the returned copy equals it |
| Plots.Frame.AddLeftGazeAdvantage | glam/plots.py:239-261 | the frame keeps its rows and columns and gains `left_gaze_advantage`; the returned copy equals it |
| Plots.Frame.AddLeftRelativeValue | glam/plots.py:345-366 | the frame keeps its rows and columns and gains `left_relative_value` as written, the left value minus the frame-wide mean of the non-left values; the returned copy equals it |
| Plots.Frame.AddCorrectedChoiceLeft | glam/plots.py:369-400 | the caller's frame gains `left_chosen` and the as-written `left_relative_value`; the returned frame also gains `p_choice_left_given_value` and `corrected_choice_left`, grouped by subject and that frame-wide column |

## Left out

- Floating point: numbers are exact reals. `Ext` models NaN and the infinities where the code depends on them (the sampler arguments, `np.min`, the `isfinite` test, the single-item means). Rounding, signed zero and overflow are not modelled.
- The distributions behind `np.random.uniform`, `np.random.choice` and `invgauss.rvs` are an `Oracle` of draws. The model keeps their ranges, not their statistics.
- `RetryRace`: the source's `while np.isnan(rt)` loop has no bound. The model gives it an attempt budget `maxAttempts` and reports `Stalled` when the budget runs out. `RaceBudgetIrrelevant` shows that a larger budget never changes a successful result.
- `SimulateTrial` checks the sampler's domain for every item once, before the retry loop, and fails with `SamplerDomain` if any item is refused. The source raises inside the first attempt's draw loop, after the draws for the earlier items. The stream position after the error is not modelled, because the simulation ends there. Only scipy's positivity checks on the shape and scale are modelled.
- `SimulateTrial` computes the rates once before the retry loop. The source recomputes `make_R` in every attempt, but `make_R` is deterministic, so every attempt gets the same rates.
- `SubjectSimulator.FillSubject` and the prediction loops call the trial simulator through a `TrialRunner` function value. `SimulateSubject` and `Predict` pass it the concrete runner `TrialRun`. The properties that hold for any runner are proved over it, given the runner properties `ChoosesItem` or `AnswersAfterT0`. `TrialRunChoosesItem` and `TrialRunAnswersAfterT0` prove those properties for the concrete runner.
- `PredictionGenerator.PredictionLayout` is stated for any runner that chooses item indices. No corollary is stated for the concrete runner. Combining it with `TrialRunChoosesItem` gives that case.
- `PredictionGenerator.PredictRows` takes the per-row plan (resolved parameters and error range) as a precomputed value list `Plan(m)`. The source computes both inside the row loop. `PredictRow` computes them there too, and checks the result against the plan.
- `PredictionGenerator.ErrorRange`: observed rts are finite reals. NaN rts in the observed data, which numpy's `min`/`max` would propagate, are not modelled.
- Observed and estimate rows keep `subject`, `trial`, `choice`, `rt`, `repeat`, the item values and the gazes as fields. Every other column, including a dependency column, is a map from column name to a number or label cell. When the estimates table has no dependency column at all, the source raises `KeyError` while selecting on it; the model reports that lookup as `MissingEstimate`. Both are failures of the prediction, and only the cause differs.
- The observed `rt` is overwritten by each repeat. A prediction row keeps the source row's other fields, which `RepeatOf` states. Its `rt` is the simulated one and is not otherwise constrained.
- `Plots.Difficulty` takes the maximum and the mean of the remaining values instead of sorting. The result is the same as the last sorted column minus the mean of the others.
- `Plots.Frame.AddCorrectedChoiceLeft` requires some row to have a non-left value. Otherwise every key is NaN (or the frame is empty), pandas drops the NaN groups, and the lookup or the final subtraction raises. That error path is not modelled.
- `Plots.Frame.AddLeftRelativeValue` and `Plots.Frame.AddCorrectedChoiceLeft` compute the column as written, with the frame-wide mean (see Findings). The documented per-row column `Plots.RelativeValueColumn` is defined and proved on its own but is not what the frame methods store.
- `Plots.Frame`: a frame whose rows have no `item_value` column is not modelled (`HasValues`). Gaze columns are required only by `AddLeftGazeAdvantage` (`HasGaze`), the one helper that reads them.
- `Plots.Frame`: a frame is trial rows plus a map of derived columns. Column order, dtypes, the index and pandas' copy semantics beyond "a fresh frame with the same contents" are not modelled.
- The `tqdm` progress bar and the `print` in `predict` are output only.
- The quadratic cost of `DataFrame.append` is not modelled. It is a matter of performance, not behaviour.
- The fitting subsystem that builds the model (`data`, `estimates`, `depends_on`, `n_items`) is not part of this model. The model is a given input record.
- All plotting in `glam/plots.py` is not part of this model. This covers figure layout, summary statistics that only feed plots, and `pd.cut` labels as a categorical dtype. Only the bin assignment and its left-edge label are modelled.

## Findings

| source | as written | input that shows it | evidently intended | confidence | as-written member | corrected member |
|---|---|---|---|---|---|---|
| glam/plots.py:363 | `values[:, 0] - np.mean(values[:, 1:])` subtracts the mean of all non-left values of the whole table | two binary rows with values `[1, 0]` and `[0, 1]`: the first row gets `1 - 0.5 = 0.5` | the left value minus the mean of that row's other values, `v0 - v1` for two items, as lines 349-350 state | not executed | Plots.TableRelativeValueNotPerRow | Plots.RelativeValueColumn |
