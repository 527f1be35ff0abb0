# esn-sat fault detection, modelled in Dafny

esn-sat flags faults in vegetation-index (NDVI) time series. The signal is denoised by a
chain of filters. It is then cut into 52-wide sliding windows. An Echo State Network (ESN)
forecasts the signal, and a second ESN forecasts the residuals of the first. A fault is raised
when a fresh closed-loop forecast stays strictly below the lower bound
`prediction - k * residual forecast` for `N` consecutive points.

This project models the indexing and control flow around the library calls:

- `Dataset`: the sliding-window dataset builder `create_training_data`.
- `Denoising`: the ordered composition of processors `denoise_time_series`.
- `Esn`: the ESN as the code sees it. `Network` is a class with a recurrent state advanced by an
  opaque step function, an opaque trainer and a `fitted` flag. `Replay` (replay mode) and
  `ClosedLoop` (generative mode) are the functions its methods are proved against.
- `Forecasting`: the class `Forecaster`, with its fit-once guard and its forecast. The forecast
  replays `X[:-memory]` from a reset state, then rolls out in closed loop. Its generation loop
  (foreutils/forecasting.py:31-36) is the same loop as the stand-alone `forecast`, so it is
  modelled once, by `Models.Forecast`, which `Forecaster.Forecast` calls.
- `Models`: the stand-alone closed-loop `forecast`.
- `FaultDetection`: the driver `fault_detection`. It covers the split plan
  `T`, `s`, `s_tilde`, the residual and lower-bound alignment, the per-iteration slices and the
  scan for `N` consecutive points below the bound.
  - `FaultDetection.FaultDetection` is the driver as written, with its forecaster calls
    replaced by oracles (as written they raise `TypeError`): only its first iteration runs.
  - `FaultDetection.FaultDetectionAllIterations` runs every iteration, as its documentation describes.
- `Slicing`: Python's slice semantics (negative bounds, clamping), which the other modules use.

Values are exact `real`s. In the driver, each forecaster is an `Oracle`: a function from the
history of fit-then-forecast rounds it has been given to the values it forecasts in the last
round. The model computes the data handed to each round. The filters and the ESN internals are
parameters.

## Model

| member | source | states |
|---|---|---|
| `Dataset.CreateTrainingData` | foreutils/utils.py:22-33 | there are `len(ts) - nf` samples; row `i` is `ts[i .. i+nf)` and target `i` is `ts[i+nf]` |
| `Dataset.TakeFlatten` | foreutils/utils.py:25-28 | gathering values at the flattened index grid equals flattening the row-by-row gathers, and the grid stays inside the series |
| `Dataset.ReshapeFlatten` | foreutils/utils.py:28 | reshaping into rows of `nf` undoes the row-major flattening |
| `Dataset.TargetFollowsRow` | foreutils/utils.py:25-31 | a row followed by its target is the `nf + 1` window at the same position |
| `Dataset.RowsSlideByOne` | foreutils/utils.py:25-31 | row `i + 1` is row `i` without its first value, followed by target `i` |
| `Dataset.LastValueOnlyTarget` | foreutils/utils.py:22-31 | with `nf == len(ts)` both arrays are empty; no row reaches the last value, which is the last target |
| `Denoising.DenoiseTimeSeries` | foreutils/denoising.py:94-110 | the loop's result is the ordered composition `Pipeline` of the processors |
| `Denoising.PipelineFirst` | foreutils/denoising.py:106-108 | no processors leave the series as it is; one processor `p` gives `p(ts)`; the first processor is applied first |
| `Denoising.PipelineSplit` | foreutils/denoising.py:107-108 | denoising with `A ++ B` is denoising with `A`, then with `B` |
| `Esn.ClosedLoopIsRollout` | forecast/models.py:28-30 | the closed loop's first output is the network applied to `x`, and each later output is the network applied to the previous output |
| `Esn.RolloutIsClosedLoop` | foreutils/forecasting.py:34-36 | any run that feeds each output back as the next input equals the closed loop, outputs and final state |
| `Esn.Network.Call` | foreutils/forecasting.py:35 | `model(x)` advances the recurrent state by one step and returns that step's output; nothing else changes |
| `Esn.Network.Run` | foreutils/forecasting.py:28 | `run(xs, reset)` replays `xs` from the reset state (or the current one), giving one output per row |
| `Esn.Network.Fit` | foreutils/forecasting.py:23 | the library fit trains the network, marks it fitted and returns the same network |
| `Forecasting.Forecaster.constructor` | foreutils/forecasting.py:11-19 | the network, `X` and `y` are stored as given |
| `Forecasting.Forecaster.Fit` | foreutils/forecasting.py:21-23 | the network is trained on `(X, y)` only when it is not fitted yet; a fitted one is left unchanged |
| `Forecasting.FitOnce` | foreutils/forecasting.py:22-23 | after the guard the network is fitted, and a second guarded fit changes nothing |
| `Forecasting.Forecaster.Forecast` | foreutils/forecasting.py:25-38 | the result is the closed loop of `forecast_len` steps from the state and last output of replaying `X[:-memory]`, or an error when that replay is empty |
| `Forecasting.ForecastShape` | foreutils/forecasting.py:28-32 | the forecast fails exactly when `memory` leaves nothing to replay (`memory == 0` included), and otherwise has exactly `forecast_len` values |
| `Forecasting.ForecastIsRollout` | foreutils/forecasting.py:32-36 | a successful forecast starts from the last replay output and feeds each output back as the next input |
| `Slicing.DropLast` | foreutils/forecasting.py:28 | `X[:-m]` is all rows but the last `m`; it is empty for `m == 0` and for `m >= len(X)` |
| `Slicing.LastElements` | foreutils/fault_detection.py:73 | `X[-m:]` is the last `m` rows, or all of them when there are fewer |
| `Models.Forecast` | forecast/models.py:18-32 | `ypred` has `forecast_len` entries, which are the closed loop from `x`; the state advances `forecast_len` steps; `memory` and `warmup` play no part |
| `FaultDetection.Prepare` | foreutils/fault_detection.py:59-95 | `T = len(X)`, `s = T - forecasted_steps`, `s_tilde = s - residuals_training_steps`, and the bound covers the `T - s` rows from `s` |
| `FaultDetection.PrepareRows` | foreutils/fault_detection.py:59-60 | row `r` of the driver's dataset is the 52-value window of the denoised signal from `r`, and its target is the next value |
| `FaultDetection.PrepareSignalSplit` | foreutils/fault_detection.py:67-76 | the signal forecaster trains on `X[:s_tilde]`, `y[:s_tilde]`, warms up on their last 52 rows and forecasts `T - s_tilde` values |
| `FaultDetection.PrepareLowerBound` | foreutils/fault_detection.py:79-95 | there are `residuals_training_steps` residuals `y[s_tilde+t] - pred[t]`, and `lower_bound[i] = pred[s - s_tilde + i] - k * resid[i]` for each of the `forecasted_steps` rows |
| `FaultDetection.Residuals` | foreutils/fault_detection.py:79-80 | residual `t` is the target of row `s_tilde + t` minus forecast value `t` |
| `FaultDetection.LowerBound` | foreutils/fault_detection.py:95 | the clamped slice `[s - s_tilde : T]` leaves `T - s` values, aligned entry by entry with the residual forecast |
| `FaultDetection.Range` | foreutils/fault_detection.py:101 | `range(0, max_iter, h)`: starts at the start and increases by `h`; every value is below the stop, and the last value is within `h` of the stop, so every value up to the stop is listed; empty exactly when the stop is not above the start |
| `FaultDetection.IterationSlices` | foreutils/fault_detection.py:104-117 | iteration `i` forecasts `T - s - i` values; it trains on `X[s+i : s+i+h]` and warms up on the 52 rows that end at `s+i+h`, or, past `T`, on the rows from `s+i+h-52` up to `T`, which are none once `h >= T - s - i + 52` |
| `FaultDetection.History` | foreutils/fault_detection.py:101-113 | the signal forecaster is fitted first offline; round `d` of the history is then the round of iteration `d - 1`, for every `d` in order |
| `FaultDetection.IterationForecastsWellSized` | foreutils/fault_detection.py:106-121 | every iteration's forecast ends exactly at the end of the lower bound |
| `FaultDetection.WindowSlicesWhole` | foreutils/fault_detection.py:120-121 | every window the scan tests lies inside the forecast and inside `lower_bound`, so neither slice is clamped |
| `FaultDetection.RunBelowPointwise` | foreutils/fault_detection.py:121 | the array test holds exactly when each of the `N` points is strictly below the bound at its own row |
| `FaultDetection.ScanForecast` | foreutils/fault_detection.py:120-123 | flags exactly when some window of `N` points is below the bound, and stops at the first such window |
| `FaultDetection.RunTriggers` | foreutils/fault_detection.py:120-123 | any run of `N` below-bound points is flagged, and `N == 0` flags every forecast |
| `FaultDetection.ShortForecastNeverFlags` | foreutils/fault_detection.py:120 | a forecast shorter than `N` has no window and is never flagged |
| `FaultDetection.ShorterRunNeverTriggers` | foreutils/fault_detection.py:120-123 | when all below-bound points fit in `N - 1` consecutive positions, nothing is flagged |
| `FaultDetection.WindowMissesBlock` | foreutils/fault_detection.py:121 | a window of `N` points is never inside a block of `N - 1` positions |
| `FaultDetection.AsWrittenSeesFirstIterationOnly` | foreutils/fault_detection.py:101-125 | the written scan's result depends on the first iteration's forecast alone, and a fault it reports is one the full scan reports |
| `FaultDetection.MissedLaterFault` | foreutils/fault_detection.py:101-125 | two iterations where only the second forecast dips below the bound: the written scan reports `0.0` and the full scan a fault |
| `FaultDetection.AsWrittenFaultIsFault` | foreutils/fault_detection.py:98-125 | a fault the driver reports as written is also reported by the full loop; the driver returns `None` exactly when there is no iteration |
| `FaultDetection.ScanAsWrittenLoop` | foreutils/fault_detection.py:98-125 | the scan loop as written: `1.0` or `0.0` from the first iteration, or `None` with no iteration |
| `FaultDetection.ScanAllIterationsLoop` | foreutils/fault_detection.py:98-123 | the scan loop running every iteration flags exactly when some iteration's forecast has a qualifying window |
| `FaultDetection.FaultDetection` | foreutils/fault_detection.py:15-125 | the driver as written: denoise, prepare, then the written scan of the prepared set-up |
| `FaultDetection.FaultDetectionAllIterations` | foreutils/fault_detection.py:26-49 | the driver as documented: a fault in any iteration is reported |

## Left out

- ESN internals are not modelled. This covers reservoir dynamics, ridge regression, the
  library's training and the module-level network wiring in forecast/models.py:9-16. The network
  is an opaque update rule `step` and an opaque `trainer`.
- The filters `downsample_time_series`, `moving_std_filter` and `holt_winters_filter` are not
  modelled. They are pandas and statsmodels code over floating point. The driver takes its
  processors as a parameter.
- Floating-point rounding is not modelled: values, bounds and comparisons are exact reals.
- The driver imports the `Forecaster` of foreutils/forecasting.py but calls it with arguments
  its methods do not accept: `Forecaster(ESN, num_features=52)`, `fit(X, y, warmup=...)` and
  `forecast(T=..., warmup_X=...)`. As written, the constructor call at
  foreutils/fault_detection.py:70 raises `TypeError` before any forecast is made. The model does
  not reconcile this: each driver forecaster is an oracle, and the model computes the rows,
  targets, warmup rows and horizon handed to it.
- FaultDetection.FaultDetection and FaultDetection.FaultDetectionAllIterations require honest
  forecasters: each returns exactly as many values as asked for. No code of the program backs
  this; it is an assumption of the model about its abstract forecasters.
- FaultDetection.Prepare, FaultDetection.FaultDetection and FaultDetection.FaultDetectionAllIterations
  assume honesty even for rounds with no training rows and an empty warm-up. There are three such
  configurations. (a) `52 + forecasted_steps + residuals_training_steps == len(denoised)` gives
  `s_tilde == 0`, so the signal round trains on nothing and warms up on nothing. (b)
  `residuals_training_steps == 52` leaves the residual round with no rows at all. (c)
  `h >= forecasted_steps + 52` leaves iteration 0, and every later one, with an empty warm-up.
  A forecaster that replays its warm-up, as `Forecaster.forecast` does with `warmup_y[-1]`,
  fails there (Forecasting.ForecastShape); the model instead lets the oracle return a full
  horizon.
- FaultDetection.FaultDetection requires `residuals_training_steps >= 52`, and so do
  FaultDetection.Prepare and FaultDetection.FaultDetectionAllIterations. The cut-off is the
  precondition of Dataset.CreateTrainingData. The source does not fail below it. With fewer than
  52 residuals the sample count is negative. The index grid is then empty, numpy takes the
  negative size in `reshape` as the inferred dimension, and the residual dataset degenerates to
  empty arrays. The residual forecaster is then fitted on nothing. That case is not modelled.
- FaultDetection.FaultDetection also requires `52 + forecasted_steps + residuals_training_steps`
  not to exceed the denoised length. This keeps `s_tilde >= 0`; a negative `s_tilde` would make
  `X[:s_tilde]` count from the end, and that case is not modelled. The same requirement applies
  to FaultDetection.FaultDetectionAllIterations.
- Negative `h`, `N`, `forecast_len`, `forecasted_steps` and `residuals_training_steps` are not
  modelled (they are `nat`s here), and `h == 0` is excluded because `range` rejects a zero step.
- Dataset.CreateTrainingData requires `num_features <= len(ts)`. With a longer window the
  sample count is negative, and numpy yields an empty `(0, num_features)` array of rows. Those
  degenerate arrays are not modelled.
- Forecasting.ForecastShape covers only `memory >= 0`. A negative `memory` makes `X[:-memory]`
  a prefix; `Forecaster.Forecast` models that case, but no lemma is stated about it.
- The numpy row shapes (`reshape(1, -1)`, `(forecast_len, 1)` arrays) are not modelled. Vectors
  are `seq<real>`, and a one-dimensional array is a sequence.
- `denoise_time_series` copies its input before folding. Series are values here, so the
  caller's series cannot change.
- `foreutils/metrics.py`, `foreutils/visualization.py`, the commented-out
  `forecast/fault_detection.py` and the packaging scripts are not part of this model.

## Findings

| source | as written | input that shows it | evidently intended | confidence | as-written member | corrected member |
|---|---|---|---|---|---|---|
| foreutils/fault_detection.py:125 | `return float(flag)` sits inside the outer `for i` loop, so only iteration `i = 0` is scanned | two iterations over a bound `[1.0, 1.0]` with `N = 1`: the first forecast is `[5.0, 5.0]` and the second is `[0.0]`. The written scan returns `0.0`, yet the second iteration is below the bound | the `return` after the outer loop, so every iteration is scanned until a fault is found, as the docstring's step 7 describes | not executed | `FaultDetection.FaultDetection`, `FaultDetection.MissedLaterFault` | `FaultDetection.FaultDetectionAllIterations` |

The written driver also returns `None` when `forecasted_steps == 0`, because there is no
iteration and the function falls off its end. Its result is the `float` `1.0` or `0.0`
despite the `bool` annotation. Both behaviours are modelled as written: see
`FaultDetection.ScanAsWrittenLoop`.
