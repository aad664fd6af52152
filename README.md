# Time-lag permeation analysis, modelled in Dafny

The repository analyses gas-permeation experiments. A raw frame of detector
readings (`t / s`, `y_CO2 / ppm`, `P_cell / barg`, `T / °C` and, optionally,
`qN2 / ml min^-1`) goes through three stages:

* **preprocessing** (`src/data_processing.py`): baseline correction,
  absolute pressure, the CO2 flux through the membrane disc, and the
  cumulative flux;
* **the stabilisation detector** (`identify_stabilisation_time`): finds the
  first row where the rolling mean of the relative change of the gradient
  drops below a threshold;
* **the time-lag analysis** (`src/calculations.py`): a straight-line fit to
  the steady part of the cumulative-flux curve, and the diffusion
  coefficient, permeability and solubility derived from the time lag; then
  an explicit finite-difference solver of Fick's second law for the fitted
  coefficients.

`time_lag_analysis_workflow` (`src/time_lag_analysis.py`) wires these
together. It chooses the stabilisation time (an override or the detector),
caps the series at the end time, normalises the flux by its steady-state
mean, runs the fit and then runs the solver.

The model has six modules, one file each:

| file | module | models |
|---|---|---|
| `common.dfy` | `Common` | Result/Option, the error kinds, the column names, sums and means, row masks (`df[mask]`), and their lemmas |
| `frames.dfy` | `Frames` | a pandas DataFrame as a class with in-place `df[name] = values`, `copy`, `loc[mask]` and `df[names]` |
| `data_processing.dfy` | `DataProcessing` | every function of `src/data_processing.py` except `load_data` |
| `calculations.dfy` | `Calculations` | `time_lag_analysis`, with the closed form of the degree-1 least-squares fit, and `flux_pde_const_D` as an imperative loop over a 2-D array |
| `workflow.dfy` | `Workflow` | the selection, capping, normalisation and wiring part of `time_lag_analysis_workflow` |
| `scenarios.dfy` | `Scenarios` | the concrete cases of the repository's tests, evaluated on the model |

Reals are exact. A frame has the default index, so a row label is the
row's position in the uncapped frame. A failure that Python raises is an
`Error` value carried by a `Result`.

Where the code and its comments or tests disagree, the model follows the
code:

* The baseline is `df.loc[:10].mean()`. That slice includes label 10, so it
  averages eleven rows, not the "first 10 data points" of the comment
  (`BASELINE_ROWS = 11`).
* The stability test expects `dt = 10` to be refused. With D = 1e-7 and
  dx = 0.002, however, the bound dx²/(2D) is 20, so the guard lets
  `dt = 10` through (`Scenarios.TestStability`).
* The detector's `max` gate is commented out. Only the rolling mean is
  gated.

## Model

| member | source | states |
|---|---|---|
| Common.Trunc | src/calculations.py:73-74 | Python's `int()` truncates toward zero: the floor for x ≥ 0, and k − 1 < x ≤ k below 0 |
| Common.Max | src/time_lag_analysis.py:57 | `Series.max()` is an element of the column and bounds every element |
| Common.MeanOrNaN | src/time_lag_analysis.py:71 | a mean is undefined (NaN) exactly on an empty selection |
| Common.Normalise | src/time_lag_analysis.py:74 | each normalised entry is the flux of that row divided by the divisor; the length is kept |
| Common.NormalisedMean | src/time_lag_analysis.py:68-74 | dividing a column by the mean of some of its rows makes the mean of those rows exactly 1 |
| Common.AtMostIsPrefix | src/time_lag_analysis.py:65 | on strictly increasing times, the rows with t ≤ hi are exactly the first Count rows, and filtering any column by them yields its prefix |
| Common.WhereIncreasing | src/calculations.py:31 | selecting rows keeps a strictly increasing time column strictly increasing |
| Common.WhereAgree | src/calculations.py:31-32 | two columns that agree on the selected rows select to the same column |
| Frames.DataFrame.SetColumn | src/data_processing.py:154 | `df[name] = values` replaces the named column or appends it at the end; nothing else changes |
| Frames.DataFrame.Copy | src/data_processing.py:146 | `df.copy()` is a fresh frame with the same columns, contents and length |
| Frames.FilterRows | src/time_lag_analysis.py:65 | `df.loc[mask]` is a fresh frame with the same columns, every column filtered by the mask, and Count(mask) rows |
| Frames.FirstMissing | src/data_processing.py:167 | the first requested name that is not a column, or none exactly when every name is present |
| Frames.SelectColumns | src/data_processing.py:166-167 | `df[names]` is a KeyError on the first missing name; otherwise it is a fresh frame holding exactly those columns, in that order, at the same length |
| DataProcessing.MainColumnsDistinct | src/data_processing.py:166 | the seven main column names are distinct |
| DataProcessing.Baseline | src/data_processing.py:153 | the baseline is the mean of the first min(11, n) rows (labels 0..10 inclusive), and undefined on an empty column |
| DataProcessing.CorrectBaseline | src/data_processing.py:27-40 | a KeyError without the concentration column; otherwise corrected + baseline equals the raw value, row by row, at the same length |
| DataProcessing.BaselineWindowMeanZero | src/data_processing.py:153-154 | after correction, the rows the baseline was taken from sum to zero |
| DataProcessing.AbsolutePressure | src/data_processing.py:54 | each absolute pressure minus 1.01325 bar is the gauge reading of that row; the length is kept |
| DataProcessing.CalculatePressure | src/data_processing.py:42-55 | a KeyError exactly when the gauge column is missing; otherwise the absolute pressures |
| DataProcessing.AbsolutePressureMonotone | src/data_processing.py:54 | the conversion keeps the order of readings, and each absolute pressure exceeds its gauge reading |
| DataProcessing.DiscArea | src/data_processing.py:77 | the disc area A satisfies 4A = π·d² and is positive |
| DataProcessing.FluxOf | src/data_processing.py:87 | flux[i]·A·60·10⁶ = q[i]·bl[i] for every row: ml/min to ml/s, ppm to a fraction, divided by the area |
| DataProcessing.FluxNonNegative | src/data_processing.py:87 | non-negative flow rates and corrected concentrations give non-negative fluxes |
| DataProcessing.FlowColumn | src/data_processing.py:80-83 | an explicit flow rate is broadcast to every row; otherwise the frame's column is used, or the ValueError when there is none |
| DataProcessing.CalculateFlux | src/data_processing.py:57-89 | the ValueError without the corrected column, then the one without any flow rate; the flux for the known unit (or "None"); for any other unit, the frame's existing flux column or a KeyError |
| DataProcessing.ExplicitFlowOverrides | src/data_processing.py:80-81 | an explicit flow rate overrides the flow-rate column |
| DataProcessing.Increments | src/data_processing.py:101 | `flux * t.diff().fillna(0)` is 0 on the first row and flux[i]·(t[i] − t[i−1]) after it |
| DataProcessing.CumulativeFlux | src/data_processing.py:101 | cum[0] = 0 and cum[i] = cum[i−1] + flux[i]·(t[i] − t[i−1]), using the right-hand flux |
| DataProcessing.CumulativeNonDecreasing | src/data_processing.py:101 | with flux ≥ 0 and non-decreasing times, the cumulative flux never decreases |
| DataProcessing.CumulativeConstantFlux | src/data_processing.py:101 | a constant flux c accumulates to c·(t[k] − t[0]) |
| DataProcessing.CumSum | src/data_processing.py:101 | the running-sum loop: entry k is the sum of the first k + 1 increments |
| DataProcessing.CalculateCumulativeFlux | src/data_processing.py:91-102 | writes the cumulative flux into the caller's frame in place; a KeyError, with the frame untouched, when the flux or the time column is missing |
| DataProcessing.Gradient | src/data_processing.py:124 | the gradient is undefined on the first row, and g[i]·(t[i] − t[i−1]) = y[i] − y[i−1] after it |
| DataProcessing.Change | src/data_processing.py:125 | a relative change is defined exactly when both values are defined and the earlier one is non-zero; it is then \|cur − prev\| / \|prev\| |
| DataProcessing.RelativeChange | src/data_processing.py:125 | `.pct_change().abs()`: undefined on the first row, and the change between consecutive gradients after it |
| DataProcessing.RollingMean | src/data_processing.py:125 | the rolling mean at row i is defined exactly when the W terms ending at i exist and are all defined; it is then their sum divided by W |
| DataProcessing.Passes | src/data_processing.py:125-130 | a row passes exactly when its W trailing relative changes all exist and are defined and sum to at most W·threshold, that is, the rolling mean is at most the threshold; only the mean is gated |
| DataProcessing.FirstQualifying | src/data_processing.py:130 | the least passing row at or after `from`, or none when no such row passes |
| DataProcessing.StabilisationTime | src/data_processing.py:124-132 | the detector succeeds exactly when some row passes; it returns the time of the least such row, and otherwise fails with the IndexError (no default time) |
| DataProcessing.NoEarlyStabilisation | src/data_processing.py:125 | no row below W + 1 can pass |
| DataProcessing.IdentifyStabilisationTime | src/data_processing.py:119-132 | a ValueError when the target column, then when the time column, is missing; otherwise the detector on those columns |
| DataProcessing.PreprocessError | src/data_processing.py:146-169 | the first failure of `preprocess_data`, in the order the code meets them; none exactly when every needed column is present |
| DataProcessing.CorrectedPpm | src/data_processing.py:153-154 | each corrected value is the raw value minus the baseline |
| DataProcessing.Preprocessed | src/data_processing.py:146-169 | the preprocessed frame has exactly the seven main columns, at the input's length, with each computed column given by its definition from the input |
| DataProcessing.Main | src/data_processing.py:166-167 | the main-column frame has exactly the seven names, each holding the column it is given |
| DataProcessing.AddCorrectedAndPressure | src/data_processing.py:152-157 | adds the corrected and pressure columns to the working copy; a KeyError exactly when there is no gauge column |
| DataProcessing.AddFluxAndCumulative | src/data_processing.py:159-163 | adds the flux and cumulative-flux columns to the working copy; fails exactly without any flow rate or without the time column |
| DataProcessing.SelectedIsPreprocessed | src/data_processing.py:165-167 | selecting the main columns of the finished working copy gives the preprocessed frame |
| DataProcessing.OnlyTemperatureMissing | src/data_processing.py:167 | when only the temperature column is missing, the final selection names it |
| DataProcessing.PreprocessData | src/data_processing.py:134-169 | fails exactly as PreprocessError says; otherwise returns a fresh frame with the main columns in order, the input's length and the preprocessed contents, leaving the caller's frame unchanged |
| Calculations.Centred | src/calculations.py:32 | a column minus its mean sums to zero |
| Calculations.Spread | src/calculations.py:32 | Σ(t − t̄)² is non-negative, and zero on no rows |
| Calculations.SpreadPositive | src/calculations.py:32 | on strictly increasing times, the fit is well-posed (positive spread) exactly when there are at least two rows |
| Calculations.Slope | src/calculations.py:32 | the slope coefficient of `np.polyfit(t, y, 1)` in closed form, Σ(t − t̄)(y − ȳ) / Σ(t − t̄)²; ExactLine and NormalEquations state what it means |
| Calculations.Intercept | src/calculations.py:32 | the intercept coefficient, ȳ − slope·t̄; ExactLine and NormalEquations state what it means |
| Calculations.ExactLine | src/calculations.py:32 | data lying exactly on y = m·t + c is fitted with slope m and intercept c |
| Calculations.NormalEquations | src/calculations.py:32 | the fitted residuals sum to zero and are orthogonal to the times: the fitted line is the least-squares line |
| Calculations.Derive | src/calculations.py:35-53 | time_lag·slope = −intercept, 6·D·time_lag = L², P·pressure = L·slope, S·D = P and solubility = S·pressure |
| Calculations.DerivedPositive | src/calculations.py:35-53 | slope > 0, intercept < 0, L > 0 and pressure > 0 make time lag, D, P, S and solubility all positive |
| Calculations.TimeLagAnalysis | src/calculations.py:12-55 | the two ValueErrors come first; the fit and the pressure mean use exactly the rows with t > ts; the analysis is Degenerate exactly on zero spread and fails exactly on a value that would be infinite or NaN; on success it is Derive of the fitted line |
| Calculations.FitNeedsTwoRows | src/calculations.py:31-32 | the fit is degenerate exactly when fewer than two rows lie after ts |
| Calculations.SteadyRowsOnly | src/calculations.py:31-44 | rows at or before ts do not affect the analysis |
| Calculations.ExactLineAnalysis | src/calculations.py:31-35 | on data exactly on y = m·t + c after ts, with two such rows, the analysis succeeds exactly when no derived value would be infinite or NaN, and then recovers m and c |
| Calculations.ExactSteadyFit | src/calculations.py:31-32 | the steady rows of such data have a positive spread and are fitted by m and c |
| Calculations.NumNodes | src/calculations.py:73 | Nx = int(L/dx) + 1 is at least 2 once L/dx ≥ 1 |
| Calculations.NumSteps | src/calculations.py:74 | Nt = int(T/dt) + 1: for T/dt ≥ 0, one more than the number of whole steps that fit in T (Nt − 1 ≤ T/dt < Nt); for T/dt < 0, at most 1 |
| Calculations.Stable | src/calculations.py:77 | the guard dt ≤ dx²/(2D); for D > 0 it holds exactly when 2·D·dt ≤ dx² |
| Calculations.SolverError | src/calculations.py:73-84 | the AssertionError exactly when dt > dx²/(2D); then numpy's refusal exactly when Nt < 0; otherwise the solver runs |
| Calculations.Advance | src/calculations.py:93-99 | one step keeps C[0] = C_eq and C[Nx−1] = 0, and updates each interior node by the stencil from the previous row only |
| Calculations.Profile | src/calculations.py:86-100 | every row has C_eq in column 0 and 0 in the last column, and row 0 is zero at every x > 0 |
| Calculations.Stencil | src/calculations.py:96 | the interior update C[i] + dt·D·(C[i+1] − 2C[i] + C[i−1])/dx²; StencilAverage states it as a weighted average |
| Calculations.StencilAverage | src/calculations.py:96 | the update is (1 − 2k)·C[i] + k·C[i+1] + k·C[i−1], with k = dt·D/dx² |
| Calculations.BoundaryFlux | src/calculations.py:103 | flux_L = −D·(C[Nx−1] − C[Nx−2])/dx; BoundaryFluxForm turns it into D·C[Nx−2]/dx on a row with C[Nx−1] = 0, and FluxRising states it is non-negative and rising |
| Calculations.BoundaryFluxForm | src/calculations.py:98-103 | with C[Nx−1] = 0, as every row of the scheme has, the outlet flux is D·C[Nx−2]/dx |
| Calculations.FluxPdeConstD | src/calculations.py:57-114 | the refusal exactly as SolverError says; otherwise an Nt × Nx surface whose row n is Profile(n), and Nt fluxes, each −D·(C[Nx−1] − C[Nx−2])/dx of that row |
| Calculations.March | src/calculations.py:92-104 | the time loop fills all Nt rows of the surface and the flux list |
| Calculations.NextRow | src/calculations.py:93-99 | the copy-and-update loop computes row n of the scheme from row n − 1 |
| Calculations.InitialRow | src/calculations.py:87-90 | the initial row is zero except for C_eq at x = 0 |
| Calculations.StoreRow | src/calculations.py:100 | `C_surface[n, :] = C` writes row n and leaves every other row as it was |
| Calculations.RatioBound | src/calculations.py:77 | under the guard, with D > 0 and dt > 0, the mesh ratio lies in (0, 1/2] |
| Calculations.MaxPrinciple | src/calculations.py:77 | under the guard, every stored concentration lies between 0 and C_eq |
| Calculations.ProfileRising | src/calculations.py:96 | under the guard, each row lies pointwise below the next: the membrane only fills up |
| Calculations.FluxRising | src/calculations.py:103 | under the guard, the flux at x = L is non-negative and never decreases from one step to the next |
| Workflow.RangeError | src/time_lag_analysis.py:43-45 | a ValueError exactly when both overrides are given and start ≥ end; nothing is checked when only one is given |
| Workflow.StartTime | src/time_lag_analysis.py:48-51 | the override start if given, otherwise the detector on the cumulative flux with window 70 and threshold 0.003 |
| Workflow.EndTime | src/time_lag_analysis.py:54-57 | the override end if given, otherwise the largest time |
| Workflow.FirstAtOrAfter | src/time_lag_analysis.py:60 | the least row with t ≥ ts, found exactly when one exists; otherwise the IndexError |
| Workflow.Select | src/time_lag_analysis.py:42-60 | the range error first, then the detector's failure, then the missing stabilisation row; otherwise the window (ts, max_time, row) |
| Workflow.Rows | src/time_lag_analysis.py:65 | `loc[mask]` on the column map: the same columns, each filtered by the mask, Count(mask) rows |
| Workflow.SteadyState | src/time_lag_analysis.py:68 | the steady-state rows are those with ts < t < max_time, strict at both ends |
| Workflow.Later | src/time_lag_analysis.py:80 | the rows whose label exceeds the stabilisation row |
| Workflow.SteadyFlux | src/time_lag_analysis.py:68-71 | the mean flux over the steady-state rows, defined exactly when there is one |
| Workflow.Analyse | src/time_lag_analysis.py:42-80 | a window failure is the result; on success, the window is Select's, the kept rows are those with t ≤ max_time, and the frame gains the normalised column |
| Workflow.Finish | src/time_lag_analysis.py:67-119 | on the capped rows: the frame is the capped frame plus flux / flux_ss; the analysis is TimeLagAnalysis of that frame at ts; the temperature is the mean over rows after the stabilisation row; the final time is the last capped time; the stabilisation row is a capped row |
| Workflow.FinishErrors | src/time_lag_analysis.py:74-119 | past the NonFinite gate, a failing analysis passes its own error through, and the KeyError of `.loc[stabilisation_index, 't / s']` comes out only when the stabilisation row is not among the capped rows |
| Workflow.NoMissingRow | src/time_lag_analysis.py:60-118 | Analyse never fails with that KeyError: a defined steady-state flux needs a capped row with t > ts, and the stabilisation row comes no later than it |
| Workflow.Report | src/time_lag_analysis.py:154-167 | the returned record holds the thickness, temperature, pressure, stabilisation time, slope, intercept, time lag, D, P, S and solubility of the plan |
| Workflow.TimeLagAnalysisWorkflow | src/time_lag_analysis.py:37-167 | a preprocessing failure comes before anything else; otherwise the outcome is the one Outcomes states for the plan of the preprocessed frame |
| Workflow.AnalyseFrame | src/time_lag_analysis.py:42-121 | on a preprocessed frame, the outcome is the one Outcomes states for the plan, with a fresh capped frame |
| Workflow.Cap | src/time_lag_analysis.py:65 | the capped series is a fresh frame holding the rows with t ≤ max_time |
| Workflow.NormaliseAndAnalyse | src/time_lag_analysis.py:67-80 | adds the normalised column to the capped frame in place and returns exactly Finish of the capped rows |
| Workflow.Simulate | src/time_lag_analysis.py:117-121 | the solver runs on the fitted D with C_eq = S·pressure, L, T = the last capped time, dt = 1 and dx = L/50; its refusal is the result, otherwise the record, the frame and the solver's surface and flux |
| Workflow.Wiring | src/time_lag_analysis.py:117-121 | after a successful analysis, D ≠ 0, dx = L/50 ≠ 0, the grid has 51 columns, and S·pressure is the analysis' solubility |
| Workflow.CappedPrefix | src/time_lag_analysis.py:65 | the capped series is the first Count rows of every column, and a row is kept exactly when its position is below Count |
| Workflow.DefaultEndKeepsAll | src/time_lag_analysis.py:54-65 | without an override end, capping keeps every row |
| Workflow.WindowPrefix | src/time_lag_analysis.py:60-65 | a successful run keeps the first `kept` rows, exactly those with t ≤ max_time, and the stabilisation row is one of them |
| Workflow.WindowRows | src/time_lag_analysis.py:68-77 | the regression's rows are the capped rows with ts < t ≤ max_time, and the steady-state rows are those with ts < t < max_time |
| Workflow.NormalisedSteadyMean | src/time_lag_analysis.py:68-74 | the normalised flux averages exactly 1 over the steady-state rows |
| Workflow.Planned | src/time_lag_analysis.py:65-74 | a successful plan's time and flux columns are the capped ones, its normalised column is the capped flux over flux_ss, and flux_ss is SteadyFlux of the capped rows |
| Scenarios.TestGrid | tests/test_calculations.py:64-65 | L = 0.1, dx = L/50, T = 1000 and dt = 1 give 51 columns and 1001 time samples |
| Scenarios.TestStability | tests/test_calculations.py:74-84 | the bound for D = 1e-7 and dx = 0.002 is 20: dt = 1 and dt = 10 run, and dt = 30 is refused |
| Scenarios.TestLine | tests/test_calculations.py:6-47 | the line 1e-6·t − 5e-3 at 50 bar over 0.1 cm gives a time lag of 5000 s, D = 1/3000000, and positive coefficients |
| Scenarios.RightHandCumulative | src/data_processing.py:101 | fluxes 1, 2, 3 at t = 0, 1, 2 accumulate to 0, 2, 5 |
| Scenarios.TestRange | src/time_lag_analysis.py:43-45 | equal override bounds are refused; an end alone is not checked |

## Left out

- `load_data`, file paths, the experiment name, directory creation, console output, the CSV export and every plot: these are I/O. The workflow starts from an already loaded frame.
- `src/app.py`, `src/visualisation.py` and the plotting helpers of `src/util.py`: GUI and rendering code.
- Floating point: the model uses exact reals, so a rounding difference, or a tolerance such as the test's `1e-10`, has no counterpart.
- NaN and infinities: where the workflow would carry a NaN or an infinity forward, the model stops with `NonFinite`. Derive and TimeLagAnalysis require or check a non-zero slope, intercept, thickness and pressure.
- DiscArea, FluxOf, CalculateFlux, Preprocessed, PreprocessData and TimeLagAnalysisWorkflow: require a non-zero disc diameter. With d = 0 the source divides by an area of 0 (src/data_processing.py:77, 87) and produces infinite fluxes.
- The detector does not stop on an infinity. A zero previous gradient makes pandas' `pct_change` infinite (src/data_processing.py:125); `Change` makes that term undefined. It then blocks only the W rolling windows that contain it, and later windows can still pass. Pandas' rolling mean over an infinite term, which is infinite or NaN, is not modelled beyond that.
- Finish: an undefined or zero steady-state flux stops with `NonFinite`. The source instead writes a NaN or infinite normalised column and carries on to the fit.
- TimeLagAnalysis: `np.polyfit` through fewer than two distinct times (an error or a rank warning in numpy) is the single error `Degenerate`.
- Times: the detector and the workflow require strictly increasing times. A repeated time would make the gradient infinite or NaN.
- FluxPdeConstD: requires D ≠ 0, dt ≠ 0, dx ≠ 0 and L/dx ≥ 1. The source divides by the first three, and it reads `C[-2]`, which needs two grid columns.
- The unused intermediate values: the detector's `gradient` column and the rolling min, max and median columns; the solver's `time` array and its two output DataFrames `df_C` and `df_flux`; the `T` of line 118. Its KeyError is reached in the source only on an empty steady-state selection, which the model has already stopped as `NonFinite`; NoMissingRow proves it unreachable in the model.
- Columns the pipeline does not name: they are `Other(name)`. They live on the preprocessor's working copy and are dropped by the final selection of the seven main columns (src/data_processing.py:166-167). Header strings are compared only through `Column.Label`.
- Select: computes `max_time` after the stabilisation row is found, while the source computes it before. Computing it cannot fail, and in this order it is always taken of a non-empty series.
- ExactLineAnalysis: does not state `time_lag = −c/m` outright. Derive's `time_lag·slope = −intercept` gives it.
- The detector test (t = 0..100, y = t² for t < 50 and 50·t after, result 56.0) is not evaluated on the model. Computing 101 gradients and their rolling windows symbolically is beyond what the verifier evaluates here. NoEarlyStabilisation and StabilisationTime state the detector's general properties.
