/** The fault-detection driver `fault_detection`: denoise the signal, build 52-wide training
    pairs, split them at `sTilde <= s <= T`, forecast the signal and its residuals to obtain a
    lower bound for the last `forecastedSteps` rows, and then scan fresh closed-loop forecasts
    for `N` consecutive points strictly below that bound.

    The forecasters are opaque here. A forecaster is an `Oracle`: the values it forecasts after
    a history of fit-then-forecast rounds (earlier rounds shape its trained state, so the whole
    history is its input). Only the data handed to each round is computed by the model. */
module FaultDetection {
  import opened Slicing
  import opened Dataset
  import opened Denoising

  /** Python's `None` or a returned value. */
  datatype Option<T> = None | Some(value: T)

  /** The window width the driver always uses (datasets, warmups and both forecasters). */
  const NumFeatures: nat := 52
  /** `warmup` of the two offline fits before the scan. */
  const InitialFitWarmup: int := 10
  /** `warmup` of the fit made in each scan iteration. */
  const OnlineFitWarmup: int := 0

  type Series = seq<real>

  /** One fit-then-forecast round: training rows and targets, the fit's warmup, the rows replayed
      before the rollout, and the number of values to generate. */
  datatype Round = Round(trainX: seq<Series>, trainY: Series, fitWarmup: int, warmupX: seq<Series>, horizon: nat)

  /** A forecaster: its forecast for the last round of a history of rounds. */
  type Oracle = seq<Round> -> Series

  /** A forecaster returns exactly as many values as the last round asks for. */
  ghost predicate Honest(f: Oracle)
  {
    forall rounds: seq<Round> :: rounds != [] ==> |f(rounds)| == rounds[|rounds| - 1].horizon
  }

  /** Elementwise difference of two arrays of equal length. */
  function Minus(a: Series, b: Series): Series
    requires |a| == |b|
  {
    seq(|a|, t requires 0 <= t < |a| => a[t] - b[t])
  }

  /** An array multiplied by a scalar. */
  function Scale(k: real, a: Series): Series
  {
    seq(|a|, t requires 0 <= t < |a| => k * a[t])
  }

  /** `y[s_tilde:s] - prediction[:s - s_tilde]`: the residual of each held-out row, with the signal
      forecast that starts at row `sTilde` aligned to it. */
  function Residuals(y: Series, prediction: Series, sTilde: nat, s: nat): (r: Series)
    requires sTilde <= s <= |y| && s - sTilde <= |prediction|
    ensures |r| == s - sTilde
    ensures forall t :: 0 <= t < |r| ==> r[t] == y[sTilde + t] - prediction[t]
  {
    Minus(Slice(y, sTilde, s), Slice(prediction, 0, s - sTilde))
  }

  /** `prediction[s - s_tilde : T] - k * residual_forecast`. The signal forecast covers rows
      `sTilde .. T`, so its slice from `s - sTilde` covers rows `s .. T`; the end `T` is at or past
      its length `T - sTilde` (past it, the end clamps), so the slice runs to the forecast's end
      and leaves exactly as many values as the residual forecast has. Entry `i` is the bound for row `s + i`. */
  function LowerBound(prediction: Series, residualForecast: Series, T: nat, s: nat, sTilde: nat, k: real): (lb: Series)
    requires sTilde <= s <= T && |prediction| == T - sTilde && |residualForecast| == T - s
    ensures |lb| == T - s
    ensures forall i :: 0 <= i < |lb| ==> lb[i] == prediction[s - sTilde + i] - k * residualForecast[i]
  {
    Minus(Slice(prediction, s - sTilde, T), Scale(k, residualForecast))
  }

  /** Everything the driver computes before its scan loop. */
  datatype Setup = Setup(
    X: seq<Series>, y: Series, T: nat, s: nat, sTilde: nat,
    signalRound: Round, prediction: Series,
    residuals: Series, residualRound: Round, residualForecast: Series,
    lowerBound: Series)

  /** The shape facts the scan relies on. */
  ghost predicate Consistent(st: Setup)
  {
    |st.X| == st.T && |st.y| == st.T && NumFeatures <= st.s <= st.T && |st.lowerBound| == st.T - st.s
  }

  /** The set-up of the driver: the split plan `T = len(X)`, `s = T - forecastedSteps`,
      `s_tilde = s - residualsTrainingSteps`, the signal forecaster's training split and forecast,
      the residuals, the residual forecaster's dataset and forecast, and the lower bound. */
  function Prepare(denoised: Series, signalModel: Oracle, residualsModel: Oracle,
                   forecastedSteps: nat, residualsTrainingSteps: nat, k: real): (st: Setup)
    requires Honest(signalModel) && Honest(residualsModel)
    requires NumFeatures <= residualsTrainingSteps
    requires NumFeatures + forecastedSteps + residualsTrainingSteps <= |denoised|
    ensures Consistent(st)
    ensures st.T == |denoised| - NumFeatures && st.s == st.T - forecastedSteps && st.sTilde == st.s - residualsTrainingSteps
  {
    var data := CreateTrainingData(denoised, NumFeatures);
    var T := |data.X|;
    var s := T - forecastedSteps;
    var sTilde := s - residualsTrainingSteps;
    var trainX := Slice(data.X, 0, sTilde);
    var trainY := Slice(data.y, 0, sTilde);
    var signalRound := Round(trainX, trainY, InitialFitWarmup, Slice(trainX, -(NumFeatures as int), |trainX|), T - sTilde);
    var prediction := signalModel([signalRound]);
    var residuals := Residuals(data.y, prediction, sTilde, s);
    var residualData := CreateTrainingData(residuals, NumFeatures);
    var residualRound := Round(residualData.X, residualData.y, InitialFitWarmup,
                               Slice(residualData.X, -(NumFeatures as int), |residualData.X|), T - s);
    var residualForecast := residualsModel([residualRound]);
    Setup(data.X, data.y, T, s, sTilde, signalRound, prediction,
          residuals, residualRound, residualForecast,
          LowerBound(prediction, residualForecast, T, s, sTilde, k))
  }

  /** Row `r` of the set-up is the 52-value window of the denoised signal from `r`, and its target
      the value right after it. */
  lemma PrepareRows(denoised: Series, signalModel: Oracle, residualsModel: Oracle,
                    forecastedSteps: nat, residualsTrainingSteps: nat, k: real)
    requires Honest(signalModel) && Honest(residualsModel)
    requires NumFeatures <= residualsTrainingSteps
    requires NumFeatures + forecastedSteps + residualsTrainingSteps <= |denoised|
    ensures var st := Prepare(denoised, signalModel, residualsModel, forecastedSteps, residualsTrainingSteps, k);
      forall r :: 0 <= r < st.T ==> st.X[r] == denoised[r..r + NumFeatures] && st.y[r] == denoised[r + NumFeatures]
  {
  }

  /** The signal forecaster trains on the rows before `sTilde`, warms up on the last 52 of them
      (all of them when there are fewer), and forecasts the `T - sTilde` rows from `sTilde` on. */
  lemma PrepareSignalSplit(denoised: Series, signalModel: Oracle, residualsModel: Oracle,
                           forecastedSteps: nat, residualsTrainingSteps: nat, k: real)
    requires Honest(signalModel) && Honest(residualsModel)
    requires NumFeatures <= residualsTrainingSteps
    requires NumFeatures + forecastedSteps + residualsTrainingSteps <= |denoised|
    ensures var st := Prepare(denoised, signalModel, residualsModel, forecastedSteps, residualsTrainingSteps, k);
      st.signalRound.trainX == st.X[..st.sTilde] && st.signalRound.trainY == st.y[..st.sTilde] &&
      st.signalRound.warmupX == (if NumFeatures <= st.sTilde then st.X[st.sTilde - NumFeatures..st.sTilde]
                                 else st.X[..st.sTilde]) &&
      st.signalRound.horizon == st.T - st.sTilde && |st.prediction| == st.T - st.sTilde
  {
    var st := Prepare(denoised, signalModel, residualsModel, forecastedSteps, residualsTrainingSteps, k);
    LastElements(st.X[..st.sTilde], NumFeatures);
  }

  /** The residuals are the held-out targets of rows `sTilde .. s` minus the aligned signal
      forecast; the residual forecaster forecasts `forecastedSteps` values; and the bound for row
      `s + i` is the signal forecast for that row minus `k` times the residual forecast `i`. */
  lemma PrepareLowerBound(denoised: Series, signalModel: Oracle, residualsModel: Oracle,
                          forecastedSteps: nat, residualsTrainingSteps: nat, k: real)
    requires Honest(signalModel) && Honest(residualsModel)
    requires NumFeatures <= residualsTrainingSteps
    requires NumFeatures + forecastedSteps + residualsTrainingSteps <= |denoised|
    ensures var st := Prepare(denoised, signalModel, residualsModel, forecastedSteps, residualsTrainingSteps, k);
      |st.residuals| == residualsTrainingSteps &&
      (forall t :: 0 <= t < residualsTrainingSteps ==> st.residuals[t] == st.y[st.sTilde + t] - st.prediction[t]) &&
      st.residualRound.horizon == forecastedSteps && |st.residualForecast| == forecastedSteps &&
      |st.lowerBound| == forecastedSteps &&
      (forall i :: 0 <= i < forecastedSteps ==>
        st.lowerBound[i] == st.prediction[residualsTrainingSteps + i] - k * st.residualForecast[i])
  {
  }

  /** `range(start, stop, h)` as a list. */
  function Range(start: nat, stop: nat, h: nat): (r: seq<nat>)
    requires h >= 1
    ensures forall c :: 0 <= c < |r| ==> start <= r[c] < stop
    ensures forall c :: 0 <= c < |r| - 1 ==> r[c + 1] == r[c] + h
    ensures r == [] <==> stop <= start
    ensures r != [] ==> r[0] == start
    ensures r != [] ==> stop <= r[|r| - 1] + h
    decreases stop - start
  {
    if stop <= start then [] else [start] + Range(start + h, stop, h)
  }

  /** The scan's iterations `range(0, max_iter, h)`, with `max_iter = T - s`. */
  function Iterations(st: Setup, h: nat): seq<nat>
    requires Consistent(st) && h >= 1
  {
    Range(0, st.T - st.s, h)
  }

  /** The data of iteration `i`: it trains on rows `s + i .. s + i + h` and warms up on the 52 rows
      that end at `end_index = s + i + h`, and forecasts the `T - (s + i)` rows from `s + i` on. */
  function IterationRound(st: Setup, h: nat, i: nat): Round
    requires st.s + i <= st.T
  {
    var start := st.s + i;
    var end := start + h;
    Round(Slice(st.X, start, end), Slice(st.y, start, end), OnlineFitWarmup,
          Slice(st.X, end - NumFeatures, end), st.T - start)
  }

  /** Iteration `i` trains on the next `h` rows from `s + i` (fewer when the data runs out) and
      forecasts `T - s - i` values; when `s + i + h <= T` its warmup is exactly the 52 rows ending
      at `s + i + h`, otherwise the slices are cut short at row `T`: the warmup keeps the rows from
      `s + i + h - 52` up to `T`, and is empty once `s + i + h - 52` is past `T`. */
  lemma IterationSlices(st: Setup, h: nat, i: nat)
    requires Consistent(st) && h >= 1 && i < st.T - st.s
    ensures var q := IterationRound(st, h, i);
      q.horizon == st.T - st.s - i &&
      (st.s + i + h <= st.T ==>
        q.trainX == st.X[st.s + i .. st.s + i + h] && q.trainY == st.y[st.s + i .. st.s + i + h] &&
        q.warmupX == st.X[st.s + i + h - NumFeatures .. st.s + i + h] && |q.warmupX| == NumFeatures) &&
      (st.T < st.s + i + h ==>
        q.trainX == st.X[st.s + i ..] && q.trainY == st.y[st.s + i ..] && |q.warmupX| < NumFeatures &&
        q.warmupX == (if st.s + i + h - NumFeatures <= st.T then st.X[st.s + i + h - NumFeatures ..] else []))
  {
  }

  /** The signal forecaster's history once the first `c` iterations have been fitted: the offline
      round, then one round per iteration. */
  function History(st: Setup, h: nat, c: nat): (rounds: seq<Round>)
    requires Consistent(st) && h >= 1 && c <= |Iterations(st, h)|
    ensures |rounds| == c + 1 && rounds[0] == st.signalRound
    ensures forall d :: 0 < d <= c ==> rounds[d] == IterationRound(st, h, Iterations(st, h)[d - 1])
  {
    if c == 0 then [st.signalRound]
    else History(st, h, c - 1) + [IterationRound(st, h, Iterations(st, h)[c - 1])]
  }

  /** The forecast regenerated in the `c`-th iteration. */
  ghost function IterationForecasts(st: Setup, signalModel: Oracle, h: nat): nat -> Series
    requires Consistent(st) && h >= 1
  {
    (c: nat) => if c < |Iterations(st, h)| then signalModel(History(st, h, c + 1)) else []
  }

  /** `np.all(a < b)` for two arrays of equal length. */
  predicate AllBelow(a: Series, b: Series)
    requires |a| == |b|
  {
    forall m :: 0 <= m < |a| ==> a[m] < b[m]
  }

  /** `np.all(forecast[j:j+N] < lower_bound[i+j:i+j+N])`: in iteration `i`, the `n` forecast points
      from `j` are all strictly below the bound at the same rows. The scan only tests windows that
      lie inside both arrays, where the two slices are whole (`WindowSlicesWhole`). */
  predicate RunBelow(forecast: Series, lowerBound: Series, i: nat, j: nat, n: nat)
    requires j + n <= |forecast| && i + |forecast| <= |lowerBound|
  {
    AllBelow(forecast[j..j + n], lowerBound[i + j..i + j + n])
  }

  /** Neither slice of a window the scan examines is clamped: `forecast[j:j+N]` and `lower_bound[i+j:i+j+N]`
      both hold `n` values, the forecast's from `j` and the bound's from `i + j`. */
  lemma WindowSlicesWhole(forecast: Series, lowerBound: Series, i: nat, j: nat, n: nat)
    requires j + n <= |forecast| && i + |forecast| <= |lowerBound|
    ensures Slice(forecast, j, j + n) == forecast[j..j + n] && |Slice(forecast, j, j + n)| == n
    ensures Slice(lowerBound, i + j, i + j + n) == lowerBound[i + j..i + j + n]
    ensures |Slice(lowerBound, i + j, i + j + n)| == n
  {
  }

  /** Forecast point `m` of iteration `i` is strictly below the bound at its row `s + i + m`. */
  predicate PointBelow(forecast: Series, lowerBound: Series, i: nat, m: nat)
    requires m < |forecast| && i + |forecast| <= |lowerBound|
  {
    forecast[m] < lowerBound[i + m]
  }

  /** The `n` forecast points from `j` are each below the bound at their own row. */
  ghost predicate WindowBelow(forecast: Series, lowerBound: Series, i: nat, j: nat, n: nat)
    requires j + n <= |forecast| && i + |forecast| <= |lowerBound|
  {
    forall m :: j <= m < j + n ==> PointBelow(forecast, lowerBound, i, m)
  }

  /** The array test of a window holds exactly when each of its `n` points is below the bound at
      its own row. */
  lemma RunBelowPointwise(forecast: Series, lowerBound: Series, i: nat, j: nat, n: nat)
    requires j + n <= |forecast| && i + |forecast| <= |lowerBound|
    ensures RunBelow(forecast, lowerBound, i, j, n) <==> WindowBelow(forecast, lowerBound, i, j, n)
  {
    var w, b := forecast[j..j + n], lowerBound[i + j..i + j + n];
    if AllBelow(w, b) {
      forall m | j <= m < j + n ensures PointBelow(forecast, lowerBound, i, m) {
        assert w[m - j] < b[m - j];
      }
    }
    if WindowBelow(forecast, lowerBound, i, j, n) {
      forall m | 0 <= m < n ensures w[m] < b[m] {
        assert PointBelow(forecast, lowerBound, i, j + m);
      }
    }
  }

  /** Some window of `n` forecast points lies strictly below the bound in iteration `i`. */
  ghost predicate FlagsFault(forecast: Series, lowerBound: Series, i: nat, n: nat)
    requires i + |forecast| <= |lowerBound|
  {
    exists j: nat :: j + n <= |forecast| && WindowBelow(forecast, lowerBound, i, j, n)
  }

  /** The inner scan `for j in range(forecast_len - N + 1)`: tests the windows in order and stops
      at the first one entirely below the bound. Reports whether it found one and where. */
  method ScanForecast(forecast: Series, lowerBound: Series, i: nat, n: nat) returns (flag: bool, at: nat)
    requires i + |forecast| <= |lowerBound|
    ensures flag <==> FlagsFault(forecast, lowerBound, i, n)
    ensures flag ==> at + n <= |forecast| && WindowBelow(forecast, lowerBound, i, at, n)
    ensures flag ==> forall j: nat :: j < at ==> !WindowBelow(forecast, lowerBound, i, j, n)
  {
    flag, at := false, 0;
    var j := 0;
    while j + n <= |forecast|
      invariant forall j': nat :: j' < j && j' + n <= |forecast| ==> !WindowBelow(forecast, lowerBound, i, j', n)
      decreases |forecast| - j
    {
      flag := RunBelow(forecast, lowerBound, i, j, n);
      RunBelowPointwise(forecast, lowerBound, i, j, n);
      if flag {
        at := j;
        return;
      }
      j := j + 1;
    }
  }

  /** A run of `n` below-bound points is flagged; so is every forecast when `n == 0`, since the
      test of an empty window is vacuously true. */
  lemma RunTriggers(forecast: Series, lowerBound: Series, i: nat, a: nat, n: nat)
    requires a + n <= |forecast| && i + |forecast| <= |lowerBound|
    requires forall m :: a <= m < a + n ==> PointBelow(forecast, lowerBound, i, m)
    ensures FlagsFault(forecast, lowerBound, i, n)
  {
    assert WindowBelow(forecast, lowerBound, i, a, n);
  }

  /** A forecast shorter than `n` is never flagged: there is no window to test. */
  lemma ShortForecastNeverFlags(forecast: Series, lowerBound: Series, i: nat, n: nat)
    requires i + |forecast| <= |lowerBound| && |forecast| < n
    ensures !FlagsFault(forecast, lowerBound, i, n)
  {
  }

  /** When every below-bound point lies in one block of `n - 1` positions, nothing is flagged:
      a run one point short of `n` never triggers. */
  lemma ShorterRunNeverTriggers(forecast: Series, lowerBound: Series, i: nat, a: nat, n: nat)
    requires i + |forecast| <= |lowerBound| && n >= 1
    requires forall m :: 0 <= m < |forecast| && PointBelow(forecast, lowerBound, i, m) ==> a <= m < a + n - 1
    ensures !FlagsFault(forecast, lowerBound, i, n)
  {
    forall j: nat | j + n <= |forecast|
      ensures !WindowBelow(forecast, lowerBound, i, j, n)
    {
      WindowMissesBlock(forecast, lowerBound, i, a, n, j);
    }
  }

  /** One window of `n` points cannot fit in a block of `n - 1` positions. */
  lemma WindowMissesBlock(forecast: Series, lowerBound: Series, i: nat, a: nat, n: nat, j: nat)
    requires i + |forecast| <= |lowerBound| && n >= 1 && j + n <= |forecast|
    requires forall m :: 0 <= m < |forecast| && PointBelow(forecast, lowerBound, i, m) ==> a <= m < a + n - 1
    ensures !WindowBelow(forecast, lowerBound, i, j, n)
  {
    if PointBelow(forecast, lowerBound, i, j) {
      assert !PointBelow(forecast, lowerBound, i, j + n - 1);
    }
  }

  /** Forecasts whose lengths match the iterations: iteration `c` starts at row `s + starts[c]`
      and its forecast reaches the end of the bound. */
  ghost predicate WellSized(F: nat -> Series, starts: seq<nat>, lowerBound: Series)
  {
    forall c :: 0 <= c < |starts| ==> starts[c] + |F(c)| == |lowerBound|
  }

  /** The scan as written: the `return` after the inner loop sits inside the outer loop, so only
      the first iteration is scanned. `1.0` or `0.0` (`float(flag)`), or `None` when there is no
      iteration at all and the function falls off its end. */
  ghost function ScanAsWritten(F: nat -> Series, starts: seq<nat>, lowerBound: Series, n: nat): Option<real>
    requires WellSized(F, starts, lowerBound)
  {
    if starts == [] then None
    else Some(if FlagsFault(F(0), lowerBound, starts[0], n) then 1.0 else 0.0)
  }

  /** The scan as documented: a fault is flagged when any iteration's forecast has a qualifying run. */
  ghost predicate ScanAllIterations(F: nat -> Series, starts: seq<nat>, lowerBound: Series, n: nat)
    requires WellSized(F, starts, lowerBound)
  {
    exists c :: 0 <= c < |starts| && FlagsFault(F(c), lowerBound, starts[c], n)
  }

  /** What the written scan reports is decided by the first iteration alone, and a fault it reports
      is one the documented scan reports too. */
  lemma AsWrittenSeesFirstIterationOnly(F: nat -> Series, G: nat -> Series, starts: seq<nat>, lowerBound: Series, n: nat)
    requires WellSized(F, starts, lowerBound) && WellSized(G, starts, lowerBound)
    requires F(0) == G(0)
    ensures ScanAsWritten(F, starts, lowerBound, n) == ScanAsWritten(G, starts, lowerBound, n)
    ensures ScanAsWritten(F, starts, lowerBound, n) == Some(1.0) ==> ScanAllIterations(F, starts, lowerBound, n)
  {
    if starts != [] && FlagsFault(F(0), lowerBound, starts[0], n) {
      assert 0 < |starts|;
    }
  }

  /** Two iterations over a bound of 1.0: the first forecast stays above it, the second drops below.
      The written scan reports `0.0`, the documented scan a fault. */
  lemma MissedLaterFault()
    ensures var F := (c: nat) => if c == 0 then [5.0, 5.0] else [0.0];
      WellSized(F, [0, 1], [1.0, 1.0]) &&
      ScanAsWritten(F, [0, 1], [1.0, 1.0], 1) == Some(0.0) &&
      ScanAllIterations(F, [0, 1], [1.0, 1.0], 1)
  {
    var F := (c: nat) => if c == 0 then [5.0, 5.0] else [0.0];
    var starts, lb := [0, 1], [1.0, 1.0];
    assert WellSized(F, starts, lb);
    forall j: nat | j + 1 <= |F(0)|
      ensures !WindowBelow(F(0), lb, 0, j, 1)
    {
      assert !PointBelow(F(0), lb, 0, j);
    }
    assert WindowBelow(F(1), lb, 1, 0, 1);
    assert FlagsFault(F(1), lb, starts[1], 1);
  }

  /** The iteration forecasts of an honest forecaster have the lengths the scan expects. */
  lemma IterationForecastsWellSized(st: Setup, signalModel: Oracle, h: nat)
    requires Consistent(st) && Honest(signalModel) && h >= 1
    ensures WellSized(IterationForecasts(st, signalModel, h), Iterations(st, h), st.lowerBound)
  {
    var F := IterationForecasts(st, signalModel, h);
    var its := Iterations(st, h);
    forall c | 0 <= c < |its|
      ensures its[c] + |F(c)| == |st.lowerBound|
    {
      var rounds := History(st, h, c + 1);
      assert |F(c)| == |signalModel(rounds)| == rounds[|rounds| - 1].horizon;
      assert rounds[|rounds| - 1].horizon == IterationRound(st, h, its[c]).horizon == st.T - st.s - its[c];
    }
  }

  /** The driver's result as written, for a given set-up. */
  ghost function AsWritten(st: Setup, signalModel: Oracle, h: nat, n: nat): Option<real>
    requires Consistent(st) && Honest(signalModel) && h >= 1
  {
    IterationForecastsWellSized(st, signalModel, h);
    ScanAsWritten(IterationForecasts(st, signalModel, h), Iterations(st, h), st.lowerBound, n)
  }

  /** The driver's result as documented, for a given set-up. */
  ghost predicate AllIterations(st: Setup, signalModel: Oracle, h: nat, n: nat)
    requires Consistent(st) && Honest(signalModel) && h >= 1
  {
    IterationForecastsWellSized(st, signalModel, h);
    ScanAllIterations(IterationForecasts(st, signalModel, h), Iterations(st, h), st.lowerBound, n)
  }

  /** A fault the driver reports as written is one the documented driver reports too; when it
      reports `0.0` or `None`, later iterations may still hold a fault (`MissedLaterFault`). */
  lemma AsWrittenFaultIsFault(st: Setup, signalModel: Oracle, h: nat, n: nat)
    requires Consistent(st) && Honest(signalModel) && h >= 1
    ensures AsWritten(st, signalModel, h, n) == Some(1.0) ==> AllIterations(st, signalModel, h, n)
    ensures AsWritten(st, signalModel, h, n) == None <==> st.T == st.s
  {
    IterationForecastsWellSized(st, signalModel, h);
    var F := IterationForecasts(st, signalModel, h);
    AsWrittenSeesFirstIterationOnly(F, F, Iterations(st, h), st.lowerBound, n);
  }

  /** The scan loop of `fault_detection` as written. The first qualifying window returns `1.0`
      from inside the inner loop; otherwise the `return` that follows the inner loop, inside the
      outer loop, ends the function in its first iteration. So the outer `for` runs its body at
      most once, which is written here as an `if`; with no iteration at all the function falls off
      its end and returns `None`. */
  method ScanAsWrittenLoop(st: Setup, signalModel: Oracle, h: nat, n: nat) returns (r: Option<real>)
    requires Consistent(st) && Honest(signalModel) && h >= 1
    ensures r == AsWritten(st, signalModel, h, n)
  {
    IterationForecastsWellSized(st, signalModel, h);
    ghost var F := IterationForecasts(st, signalModel, h);
    var iterations := Range(0, st.T - st.s, h);
    var history := [st.signalRound];
    if 0 < |iterations| {
      var i := iterations[0];
      history := history + [IterationRound(st, h, i)];
      assert history == History(st, h, 1);
      var forecast := signalModel(history);
      assert forecast == F(0);
      var flag, at := ScanForecast(forecast, st.lowerBound, i, n);
      return Some(if flag then 1.0 else 0.0);
    }
    return None;
  }

  /** The scan loop with the outer loop running on until a fault is found or the iterations are
      exhausted, as the documentation of `fault_detection` describes. */
  method ScanAllIterationsLoop(st: Setup, signalModel: Oracle, h: nat, n: nat) returns (flag: bool)
    requires Consistent(st) && Honest(signalModel) && h >= 1
    ensures flag == AllIterations(st, signalModel, h, n)
  {
    IterationForecastsWellSized(st, signalModel, h);
    ghost var F := IterationForecasts(st, signalModel, h);
    var iterations := Range(0, st.T - st.s, h);
    assert iterations == Iterations(st, h);
    flag := false;
    var history := [st.signalRound];
    var c := 0;
    while c < |iterations|
      invariant c <= |iterations| && history == History(st, h, c)
      invariant forall d :: 0 <= d < c ==> !FlagsFault(F(d), st.lowerBound, iterations[d], n)
    {
      var i := iterations[c];
      history := history + [IterationRound(st, h, i)];
      assert history == History(st, h, c + 1);
      var forecast := signalModel(history);
      assert forecast == F(c);
      var at;
      flag, at := ScanForecast(forecast, st.lowerBound, i, n);
      if flag {
        assert ScanAllIterations(F, iterations, st.lowerBound, n);
        return;
      }
      c := c + 1;
    }
    assert !ScanAllIterations(F, iterations, st.lowerBound, n);
  }

  /** `fault_detection` as written: denoise, prepare, and scan the first iteration only. */
  method FaultDetection(signal: Series, processors: seq<Series -> Series>,
                        signalModel: Oracle, residualsModel: Oracle,
                        forecastedSteps: nat := 10, residualsTrainingSteps: nat := 208,
                        k: real := 1.0, h: nat := 1, n: nat := 4)
    returns (r: Option<real>)
    requires Honest(signalModel) && Honest(residualsModel)
    requires h >= 1 && NumFeatures <= residualsTrainingSteps
    requires NumFeatures + forecastedSteps + residualsTrainingSteps <= |Pipeline(signal, processors)|
    ensures r == AsWritten(Prepare(Pipeline(signal, processors), signalModel, residualsModel,
                                   forecastedSteps, residualsTrainingSteps, k), signalModel, h, n)
  {
    var denoised := DenoiseTimeSeries(signal, processors);
    var st := Prepare(denoised, signalModel, residualsModel, forecastedSteps, residualsTrainingSteps, k);
    r := ScanAsWrittenLoop(st, signalModel, h, n);
  }

  /** `fault_detection` with every iteration scanned. */
  method FaultDetectionAllIterations(signal: Series, processors: seq<Series -> Series>,
                                     signalModel: Oracle, residualsModel: Oracle,
                                     forecastedSteps: nat := 10, residualsTrainingSteps: nat := 208,
                                     k: real := 1.0, h: nat := 1, n: nat := 4)
    returns (flag: bool)
    requires Honest(signalModel) && Honest(residualsModel)
    requires h >= 1 && NumFeatures <= residualsTrainingSteps
    requires NumFeatures + forecastedSteps + residualsTrainingSteps <= |Pipeline(signal, processors)|
    ensures flag == AllIterations(Prepare(Pipeline(signal, processors), signalModel, residualsModel,
                                          forecastedSteps, residualsTrainingSteps, k), signalModel, h, n)
  {
    var denoised := DenoiseTimeSeries(signal, processors);
    var st := Prepare(denoised, signalModel, residualsModel, forecastedSteps, residualsTrainingSteps, k);
    flag := ScanAllIterationsLoop(st, signalModel, h, n);
  }
}
