# Medication concentration simulator: a Dafny model

This project models the computational core of a medication calculator. The
calculator plots the blood concentration of a medication over one day for one
or more dosing schedules, so a user can compare them. The model covers:

- the one-compartment oral-absorption ("bi-exponential") formula
  `cmax * ka / (ka - ke) * (exp(-ke t) - exp(-ka t))`. It is scaled linearly by
  the dose, and the coefficients are hard-coded (`Kinetics`);
- the fixed time axis `linspace(5, 24, 1140)`, which runs from 05:00 to midnight
  (`TimeAxis`);
- the simulator (`Simulator`). For every dose event it builds a series over the
  axis that is exactly zero at every sample not strictly after the dose, and the
  dose-scaled formula elsewhere. The total is the elementwise sum of those
  series. Several schedules can be simulated side by side;
- the conversion of data-editor rows `(clock time, dose)` into dose events
  `(hour + minute / 60, dose)` (`Options`);
- superposition, dose linearity and clamping lemmas (`Superposition`). They are
  worked through on the application's default comparison (`Scenarios`): 30 mg
  at 07:30 plus 30 mg at 13:00, against 70 mg at 07:30.

All arithmetic is over `real`. The exponential is a caller-supplied parameter
`exp: real -> real`. The model uses only one fact about it: `exp(0.0) == 1.0`
(predicate `ExpZeroIsOne`). `Simulate` is the functional specification.
`TotalAndIndividualConcentrationOverTime` follows the application's loop: it
starts from zeros, then builds one series per dose, adds it into the total and
appends it to the list. It is proved to return exactly what `Simulate` returns.

Where the code's own comments, or the usual presentation of this curve, differ
from what the code does, the model follows the code:

- The axis is not at one-minute resolution, although the comment at
  `fit.py:18-19` says it is ("minute intervals"). The code asks `linspace` for
  `(24 - 5) * 60 = 1140` samples with both ends included. That leaves 1139
  gaps of 19/1139 h each, slightly more than a minute (`StepIsLongerThanAMinute`).
  As a result, no sample falls on 07:30 or 13:00 (`DoseTimesBetweenSamples`).
- `ka == ke` is not rejected up front. The division by `ka - ke` happens only
  when a dose is simulated, and then it raises. An empty schedule therefore
  simulates to all zeros even when `ka == ke` (`Simulate`, `EmptySchedule`).
- Textbook presentations of this curve assume `ka > ke`, but the hard-coded
  coefficients have `ka < ke` (`ParamsDefined`).

## Model

| member | source | states |
|---|---|---|
| Kinetics.ParamsDefined | fit.py:6 | the hard-coded coefficients have distinct rates, so the formula is defined; `0 < ka < ke` and the leading factor `cmax*ka/(ka-ke)` is negative |
| Kinetics.BiExponential | fit.py:9-10 | fails with a division by zero exactly when `ka == ke`; given `exp(0) = 1`, its value at elapsed time 0 is exactly 0 |
| Kinetics.PredictConcentration | fit.py:13-14 | fails exactly when the unit curve does; a zero dose gives 0, and elapsed time 0 gives 0 |
| Kinetics.PredictHomogeneous | fit.py:13-14 | the prediction for `k * dose` is `k` times the prediction for `dose` |
| Kinetics.PredictAdditive | fit.py:13-14 | the prediction for `d1 + d2` is the sum of the predictions for `d1` and `d2` |
| TimeAxis.Linspace | fit.py:19 | `linspace(start, stop, num)` has `num` samples and, when there is one, starts at `start` |
| TimeAxis.LinspaceAt | fit.py:19 | with at least two samples, sample `i` is `start` plus `i` steps of `(stop-start)/(num-1)` |
| TimeAxis.LinspaceShape | fit.py:19 | `linspace(start, stop, num)` has `num` samples; the first is `start`, the last is `stop`, and neighbours differ by `(stop-start)/(num-1)` |
| TimeAxis.LinspaceIncreasing | fit.py:19 | with `start < stop` the samples are strictly increasing |
| TimeAxis.TimeArray | fit.py:19 | the simulator's axis has `(24 - 5) * 60` samples |
| TimeAxis.TimeArrayShape | fit.py:19 | the axis has 1140 samples, starts at 5 and ends at 24; sample `i` is `5 + i*19/1139` and neighbours are 19/1139 h apart |
| TimeAxis.TimeArrayIncreasing | fit.py:19 | samples lie in [5, 24] and increase strictly with the index |
| TimeAxis.StepIsLongerThanAMinute | fit.py:18-19 | the step is longer than the one minute the comment claims |
| Series.Zeros | fit.py:20 | `np.zeros_like` gives a series of the requested length whose every sample is 0 |
| Series.Add | fit.py:33 | the `+=` of two equal-length series keeps the length, and each sample is the sum of the two samples at that index |
| Simulator.Contribution | fit.py:27-31 | one dose's value at hour `t` is 0 up to and including the dose time; given `exp(0) = 1`, from the dose time on it is the dose-scaled formula at `t - dose_time` |
| Simulator.ConcentrationAtSnoc | fit.py:33 | appending a dose adds that dose's contribution to the superposed concentration at every hour |
| Simulator.DoseSeries | fit.py:25-31 | one value per axis sample: exactly 0 where `time[i] - dose_time <= 0`, including the sample equal to the dose time; the dose-scaled formula at `time[i] - dose_time` where it is positive |
| Simulator.Individuals | fit.py:21-34 | exactly one series per dose event, the `k`-th being the clamped series of the `k`-th dose, in input order |
| Simulator.Total | fit.py:20-33 | same length as the axis; each sample is the sum, over the schedule, of each dose's clamped contribution at that hour |
| Simulator.Simulate | fit.py:17-36 | fails exactly when the schedule is non-empty and `ka == ke`; otherwise returns the 5..24 axis, a total of 1140 samples equal to the superposed concentration, and one 1140-sample clamped series per dose, in order |
| Simulator.SimulateStep | fit.py:33-34 | one more dose adds its series into the total and appends it to the individual list |
| Simulator.DoseSeriesLoop | fit.py:25-31 | the sample-by-sample `where` computes exactly the clamped series of the dose |
| Simulator.TotalAndIndividualConcentrationOverTime | fit.py:17-36 | the in-place accumulation loop returns exactly what `Simulate` specifies, including the division-by-zero failure |
| Simulator.SimulateOptions | fit.py:42-45 | one simulation per schedule, in input order, each equal to simulating that schedule alone; fails exactly when one of them fails |
| Superposition.TotalIsSumOfIndividuals | fit.py:20-34 | every total sample is the sum of the same sample over the returned individual series |
| Superposition.EmptySchedule | fit.py:20-23 | an empty schedule yields the axis, an all-zero total and an empty list, whatever the coefficients |
| Superposition.ConcentrationAtConcat | fit.py:23-33 | at any hour, the concentration of schedule `a ++ b` is that of `a` plus that of `b` |
| Superposition.IndividualsConcat | fit.py:23-34 | the individual series of `a ++ b` are those of `a` followed by those of `b` |
| Superposition.TotalConcat | fit.py:23-33 | the total of `a ++ b` is the elementwise sum of the totals of `a` and `b` |
| Superposition.SimulateConcat | fit.py:17-36 | simulating `a ++ b` succeeds exactly when both parts do; its total is the sum of their totals and its individual list is their concatenation |
| Superposition.TotalOrderIrrelevant | fit.py:23-33 | swapping two blocks of a schedule leaves the total unchanged |
| Superposition.ContributionScales | fit.py:13-31 | scaling one dose amount by `k` scales its clamped contribution by `k` |
| Superposition.ContributionsScale | fit.py:13-31 | scaling all dose amounts by `k` scales every dose's contribution by `k` |
| Superposition.ConcentrationAtScales | fit.py:13-33 | scaling all dose amounts by `k` scales the superposed concentration by `k` |
| Superposition.TotalScales | fit.py:13-33 | scaling all dose amounts by `k` scales the whole total series by `k` |
| Superposition.SplitDose | fit.py:13-33 | two doses taken at the same hour give the same total as one dose of their combined amount |
| Superposition.ClampOnlyBeforeDose | fit.py:9-31 | given `exp(0) = 1`, at every hour at or after the dose the clamped contribution equals the unclamped formula, so clamping changes only values before the dose |
| Superposition.ClampedRegionIsPrefix | fit.py:19-31 | on the increasing axis, once a sample is past the dose every later sample is too, and carries the formula value |
| Superposition.SimulateOptionsConcat | fit.py:42-45 | compared schedules do not interact: comparing `a ++ b` gives the results for `a` followed by those for `b`, and succeeds exactly when both comparisons do |
| Options.DecimalHour | streamlit_app.py:82 | `hour + minute/60` lies within the clock time's own hour, and in [0, 23 + 59/60] |
| Options.Zip | streamlit_app.py:84 | pairs times with doses position by position, up to the shorter list |
| Options.GetOptions | streamlit_app.py:81-84 | one dose event per row, in row order; its time is `hour + minute/60` of that row and lies in [0, 23 + 59/60]; its dose is the row's, unchanged |
| Options.ClockRoundTrip | streamlit_app.py:82 | the hour and the minute can be read back from the decimal hour |
| Options.DecimalHourInjective | streamlit_app.py:82 | two clock times give the same decimal hour exactly when their hours and minutes agree (seconds are dropped) |
| Options.GetOptionsRecoversClock | streamlit_app.py:82-84 | each converted event's hour and minute are those of its own row |
| Options.GetOptionsConcat | streamlit_app.py:82-84 | converting concatenated rows gives the concatenated conversions, so row order is preserved |
| Scenarios.DefaultRows1 | streamlit_app.py:20-25 | the first editor starts with two rows, the first at an earlier hour than the second, each dose within the column's 0..200 mg range in steps of 5 |
| Scenarios.DefaultRows2 | streamlit_app.py:27-31 | the second editor starts with one row whose dose is within the column's 0..200 mg range in steps of 5 |
| Scenarios.DefaultOptions | streamlit_app.py:21-32 | the default editor rows convert to (7.5 h, 30 mg), (13 h, 30 mg) and (7.5 h, 70 mg) |
| Scenarios.DoseTimesBetweenSamples | fit.py:19 | 07:30 lies strictly between samples 149 and 150, and 13:00 strictly between samples 479 and 480 |
| Scenarios.MorningDoseSeries | fit.py:19-31 | the 30 mg dose at 07:30 contributes exactly 0 to samples 0..149 and the dose-scaled formula from sample 150 on |
| Scenarios.OptionsProportionalBeforeSecondDose | fit.py:17-36 | both default options simulate, and before the 13:00 dose affects anything (samples 0..479), Option 2's total is 7/3 times Option 1's |
| Scenarios.DefaultComparisonSucceeds | fit.py:42-45 | the default two-option comparison never divides by zero |
| Scenarios.EditorRowsAlwaysSimulate | streamlit_app.py:87-91 | with the hard-coded coefficients, any converted editor rows simulate, with one individual series per row |

## Left out

- Plot construction (traces, labels such as "30mg" or "Total Concentration Option i", the threshold line, the layout): calls into a plotting library, not computation. Only the per-option simulation it drives is modelled (`SimulateOptions`).
- The Streamlit page: titles, data editors, columns, the medication radio button and the threshold slider. These are UI and I/O. The editors' dose bounds (0 to 200 mg in steps of 5, `DoseInEditorRange`) are proved only of the default rows; the conversion accepts any real dose, as the conversion code itself does.
- Floating-point semantics of `np.exp`, `np.linspace` and the float64 sums. Everything is over `real`, where linearity and superposition hold exactly. With floats they hold only up to rounding.
- The exponential function itself: it is a parameter, and only `exp(0) = 1` is assumed.
- Non-negativity and the rise-then-fall shape of the curve. The code does not promise them, and proving them would need analytic facts about `exp`.
- A lookup of the concentration at the current time of day: no such operation exists in the code.
- Fitting the coefficients: they are constants in the code.
- The microsecond field of a Python `time`: `ClockTime` has no such field. Like seconds, microseconds do not affect the converted hour.
- Kinetics.BiExponential: states the formula's value only through its failure condition and its zero at `t = 0`, because with an abstract `exp` nothing else about the value can be stated without restating the formula.
