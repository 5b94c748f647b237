# Sleep-stage bar chart preprocessing, modelled in Dafny

The bar chart of the sleep report turns a night's hypnogram into chart data. The
hypnogram is a time-ordered list of samples, each an instant and a sleep-stage
code. Three functions in `polydodo/src/d3/bar_chart/preproc.js` do this, and
this project models all three.

- `createSources` is a single-pass run-length encoder. It closes a stage
  interval at each sample where the stage code changes or that is the last one
  (a single closing when both hold).
  Each interval gets:
  - the stage label;
  - the display rank of that label;
  - its percentage of the night;
  - its start and end instants.
- `calculateStagesPortion` counts the samples at each of the five display
  ranks. It then divides each count by the number of samples.
- `findFirstStageIndex` gives, for each display rank, the position of the first
  interval drawn at that rank, or -1 when there is none.

Two tables describe the stages:
- `states` gives the label of each code;
- `statesOrder` lists the labels in display order.

The application passes its own tables, `STATES` and `STATES_ORDERED`, imported
from its configuration module (`polydodo/src/d3/bar_chart/initBarChart.js:21`),
which is not part of this model. `Stages.StandardTables` assumes their values:
codes W, N1, N2, N3, REM, displayed as W, REM, N1, N2, N3.

Modules:

- `Stages` holds the shared vocabulary:
  - samples and tables;
  - `Option` for JavaScript's `undefined`, and the failures;
  - exact ratios used in place of JavaScript numbers;
  - `findIndex` / `indexOf` as `FirstIndexWhere` / `IndexOf`;
  - the display rank `Rank(t, code)`, which is `statesOrder.indexOf(states[code])`.
- `Segmenter` models `createSources`. It has two layers:
  - `Scan` is the fold with the source's three accumulators (current stage, start instant, running count). It yields bare runs.
  - `CreateSources` converts each run into a `StageInterval`.

  It also has:
  - a reference description of the runs by their closing positions (`ClosingFrom`, `RunClosedAt`), proved equal to the fold;
  - `CreateSourcesLoop`, the source's loop, proved equal to `CreateSources`.
- `Aggregator` models `calculateStagesPortion`. `CalculateStagesPortion` is the
  two-pass loop. `StageShares` is the counting definition it is proved against.
- `FirstIndex` models `findFirstStageIndex`. It gives the least-index
  definition and the source's loop proved equal to it.
- `Pipeline` relates the three results of one night:
  - which ranks get an interval;
  - which ranks get a positive share;
  - a concrete night where the two disagree.

The model keeps three behaviours of `createSources` exactly as written:

- The current stage starts at the literal code 0. A night that does not start in
  stage 0 therefore opens with a one-sample interval of code 0, whose start and
  end are both the first instant.
- The counter includes the sample that closes an interval, and the percentage
  divides by `n - 1`. The percentages therefore add up to `n / (n - 1) * 100`,
  which is always more than 100.
- The last sample always closes the open interval and never opens one of its
  own. A stage other than code 0 that is seen only at the last sample therefore
  gets no interval, although `calculateStagesPortion` counts it. Code 0 always
  gets the opening interval.

## Model

| member | source | states |
|---|---|---|
| Stages.FirstIndexWhere | polydodo/src/d3/bar_chart/preproc.js:128 | `findIndex` gives -1 exactly when no element satisfies the test; otherwise it gives the least position whose element does |
| Stages.IndexOf | polydodo/src/d3/bar_chart/preproc.js:92 | `indexOf` of an `undefined` label, or of a label not in the list, is -1; otherwise it is the first position holding the label |
| Stages.Lookup | polydodo/src/d3/bar_chart/preproc.js:91 | `states[code]` is defined exactly for codes inside the table, and is then the code's label |
| Stages.Rank | polydodo/src/d3/bar_chart/preproc.js:92 | `statesOrder.indexOf(states[code])` is -1 exactly when the code has no label or its label is not displayed; otherwise it is the first display position holding the code's label |
| Stages.RankInRange | polydodo/src/d3/bar_chart/preproc.js:113 | when both tables list the same five labels, every code 0..4 has a display rank in 0..4, and the display order holds the code's label at that rank |
| Stages.RankInjective | polydodo/src/d3/bar_chart/preproc.js:92 | with distinct labels, two different codes have different display ranks |
| Segmenter.Scan | polydodo/src/d3/bar_chart/preproc.js:86-102 | from any position, the pass produces at most one run per remaining sample and starts with a run of the current stage at the current start instant. The last run ends at the last instant, runs are contiguous, neighbouring runs differ in stage, every run counts at least one sample, and the counts add up to the running count plus the remaining samples |
| Segmenter.CreateRuns | polydodo/src/d3/bar_chart/preproc.js:79-105 | for a non-empty night there are between 1 and n runs. The first has code 0 and starts at the first instant, the last ends at the last instant, the runs tile the night without gaps, neighbours carry different codes, and every count is at least 1 with the counts adding up to n |
| Segmenter.RunCodes | polydodo/src/d3/bar_chart/preproc.js:83-99 | the set of run codes is exactly {0} plus the stage of every sample except the last |
| Segmenter.ScanCodes | polydodo/src/d3/bar_chart/preproc.js:89-99 | from position i, the set of run codes is exactly the current stage plus the stages of samples i..n-2 |
| Segmenter.LastRunCode | polydodo/src/d3/bar_chart/preproc.js:89-99 | with two or more samples, the last run carries the stage of the second-to-last sample |
| Segmenter.LastOnlyStageDropped | polydodo/src/d3/bar_chart/preproc.js:83-99 | a stage other than code 0 that no sample before the last carries gets no run |
| Segmenter.ScanLastCode | polydodo/src/d3/bar_chart/preproc.js:89-99 | from any position and any accumulator state, the last run's code is the stage of the second-to-last sample, or the current stage when the pass starts at the last sample |
| Segmenter.PhantomFirstRun | polydodo/src/d3/bar_chart/preproc.js:83-96 | a night not starting in stage 0 opens with the run (code 0, count 1, first instant, first instant) |
| Segmenter.UniformNight | polydodo/src/d3/bar_chart/preproc.js:83-100 | a night in one stage s gives a single run counting every sample when s is 0; otherwise it gives the opening one-sample run of code 0 and then one run of s counting the other samples |
| Segmenter.RunsMatchClosings | polydodo/src/d3/bar_chart/preproc.js:86-100 | run j is exactly the run closed at the j-th position where the stage changes or the night ends. It carries the stage in force there, starts at the previous closing instant, ends at this one, and counts the samples in between |
| Segmenter.CreateSources | polydodo/src/d3/bar_chart/preproc.js:79-105 | no sample and one sample are failures (the source dereferences `data[0]` and divides by `n - 1`). Otherwise there are 1..n intervals, the first starts at the first instant with the label of code 0, and the last ends at the last instant. Each interval ends where the next starts, and every percentage is a multiple of 100 over n - 1 and at least 100/(n-1) |
| Segmenter.CreateSourcesLoop | polydodo/src/d3/bar_chart/preproc.js:79-105 | the source's loop with its mutable accumulators builds the same result as `CreateSources` on every input |
| Segmenter.Portion | polydodo/src/d3/bar_chart/preproc.js:93 | the exact percentage has denominator n - 1 and equals (count / (n - 1)) · 100, the source's formula |
| Segmenter.ToInterval | polydodo/src/d3/bar_chart/preproc.js:90-96 | the pushed object carries the label `states[code]`, the rank of the code (which, when not -1, holds that label in the display order), the percentage (count / (n - 1)) · 100 over n - 1, and the run's start and end |
| Segmenter.IntervalsElements | polydodo/src/d3/bar_chart/preproc.js:90-96 | interval j is the object pushed for run j |
| Segmenter.PortionsSum | polydodo/src/d3/bar_chart/preproc.js:93 | all percentages share the denominator n - 1, their numerators add up to 100·n, and their sum is n/(n-1)·100, which is more than 100 |
| Segmenter.MoreThanHundred | polydodo/src/d3/bar_chart/preproc.js:81 | 100·n/(n-1) equals n/(n-1)·100 and exceeds 100 for every n ≥ 2 |
| Segmenter.IntervalStages | polydodo/src/d3/bar_chart/preproc.js:91-92 | with consistent tables and codes in 0..4, every interval has a label and a rank in 0..4, and the display order holds that label at that rank |
| Segmenter.NeighboursDiffer | polydodo/src/d3/bar_chart/preproc.js:89-99 | with distinct labels, neighbouring intervals are drawn at different display ranks |
| Aggregator.RankCount | polydodo/src/d3/bar_chart/preproc.js:112-114 | the counter of rank r ends at most n, and at zero exactly when no sample has rank r |
| Aggregator.CalculateStagesPortion | polydodo/src/d3/bar_chart/preproc.js:108-121 | no sample is a failure, and any other night succeeds with five entries, entry r is the number of samples whose display rank is r over the number of samples, and the result is `StageShares` |
| Aggregator.StageShares | polydodo/src/d3/bar_chart/preproc.js:116-118 | five shares, all over the number of samples, each numerator at most the denominator |
| Aggregator.RankCountsAddUp | polydodo/src/d3/bar_chart/preproc.js:112-114 | the five per-rank counts add up to the number of samples whose rank is in 0..4 |
| Aggregator.AllRanked | polydodo/src/d3/bar_chart/preproc.js:113 | with consistent tables and codes in 0..4, every sample is counted in one of the five slots |
| Aggregator.SharesBounded | polydodo/src/d3/bar_chart/preproc.js:117 | every share lies in [0, 1] |
| Aggregator.SharesSum | polydodo/src/d3/bar_chart/preproc.js:116-118 | the shares add up to the fraction of samples that have a rank in 0..4 |
| Aggregator.SharesWholeNight | polydodo/src/d3/bar_chart/preproc.js:108-121 | with consistent tables and codes in 0..4, the share numerators add up to n and the shares add up to 1 |
| FirstIndex.FindFirstStageIndex | polydodo/src/d3/bar_chart/preproc.js:124-132 | five entries. Entry s is -1 exactly when no interval is drawn at rank s; otherwise it is the least position of an interval drawn at rank s |
| FirstIndex.FindFirstStageIndexLoop | polydodo/src/d3/bar_chart/preproc.js:127-129 | the source's loop builds the same five entries on every input |
| FirstIndex.FirstIndexesDistinct | polydodo/src/d3/bar_chart/preproc.js:127-129 | entries other than -1 are pairwise distinct |
| Pipeline.IntervalRanks | polydodo/src/d3/bar_chart/preproc.js:92 | interval j is drawn at the display rank of run j's code |
| Pipeline.DrawnRanks | polydodo/src/d3/bar_chart/preproc.js:89-99 | a rank has an interval exactly when it is the rank of code 0 or the rank of some sample other than the last |
| Pipeline.DrawnRankHasSample | polydodo/src/d3/bar_chart/preproc.js:89-99 | the rank of every interval is the rank of code 0 or the rank of a sample other than the last |
| Pipeline.SampleRankDrawn | polydodo/src/d3/bar_chart/preproc.js:89-99 | the rank of every sample other than the last is the rank of some interval |
| Pipeline.SharesAndIntervals | polydodo/src/d3/bar_chart/preproc.js:112-113 | a rank with a positive share has an interval unless it is the last sample's rank; a rank with an interval has a positive share unless it is the rank of code 0 |
| Pipeline.WakeThenRemRuns | polydodo/src/d3/bar_chart/preproc.js:89-99 | wake then REM closes a single run of code 0 that counts both samples |
| Pipeline.WakeThenRemShares | polydodo/src/d3/bar_chart/preproc.js:112-117 | wake then REM puts half of the night at REM's rank |
| Pipeline.WakeThenRemIntervals | polydodo/src/d3/bar_chart/preproc.js:90-96 | wake then REM gives one wake interval at rank 0 with percentage 200 over the whole night |
| Pipeline.FinalStageDropped | polydodo/src/d3/bar_chart/preproc.js:89-99 | in a night of wake then REM, half the night is REM, yet no interval is drawn at REM's rank |

## Left out

- `domainColor`, `domainX`, `domainY` (lines 11-37) only configure d3 scales, which are objects of a foreign library.
- `convertSource` (lines 45-56) builds JavaScript `Date` objects; the model treats instants as opaque integers. At line 51 it passes `getUTCDay()` (the day of the week) where the day of the month belongs. This looks like a slip, but it is outside the model.
- `initBarChart.js` and `hypnogram/line-charts.js` are not part of this model. They cover:
  - loading the CSV;
  - scales, SVG groups, tooltips and legends;
  - transitions, whose geometry lives in `transition.js` and `stages-charts.js`; those files are not part of this model.
- JavaScript typing and coercion: stage codes are integers. A CSV loader yields strings, which would make `!==` against the initial numeric 0 fire at the first sample; the model states the initial-0 behaviour on integer codes instead.
- The stage tables are parameters. The application's values come from `./constants` (imported at `polydodo/src/d3/bar_chart/initBarChart.js:21`), which is not part of this model. `Stages.StandardTables` holds assumed values (codes W, N1, N2, N3, REM; display order W, REM, N1, N2, N3), and only the concrete lemmas in `Pipeline` depend on them.
- Percentages and shares are exact ratios (`Ratio`), not floating-point numbers, so rounding is not modelled.
- Segmenter.CreateSources: the source's behaviour for fewer than two samples is replaced by failures. No sample throws a `TypeError` at `data[0]`, so the model returns `Failure(EmptySeries)`. One sample gives an `Infinity` percentage, so the model returns `Failure(SingleSample)`.
- Aggregator.CalculateStagesPortion: with no sample the source divides 0 by 0 and returns five `NaN`s; the model returns `Failure(EmptySeries)`.
- Aggregator.CalculateStagesPortion: requires `statesOrder` to have at most five labels, matching the five counters. A longer display order could give ranks 5 or more, and the source's `++` would then grow the array past five entries; the model does not follow that.
- Aggregator.CalculateStagesPortion: a sample with rank -1 (no label, or a label missing from the display order) counts in no slot. The source's `++` on index -1 adds a stray `NaN` property that is not an array element, and the model does not represent it.
- The source updates its arrays in place. The model's functions are pure, so "the input is not modified" holds by construction and is not stated separately.
