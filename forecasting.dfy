/** The `Forecaster` class: a network together with the training rows and targets it was built
    with, a fit-once guard, and a generative forecast that first replays all but the last
    `memory` rows from a reset state and then rolls out in closed loop. */
module Forecasting {
  import opened Esn
  import opened Slicing
  import Models

  /** `warmup_y[-1]` on an empty replay: the source raises an index error. */
  datatype ForecastError = EmptyWarmup

  datatype Result<T> = Ok(value: T) | Err(error: ForecastError)

  /** The network state the fit-once guard leaves: an unfitted network is trained on `(X, y)`;
      a fitted one is left as it is. */
  function GuardedFit(s: Snapshot, trainer: Trainer, X: seq<Vec>, y: seq<Vec>, warmup: int): Snapshot
  {
    if s.fitted then s
    else
      var trained := trainer(s.step, X, y, warmup);
      Snapshot(true, trained.0, trained.1)
  }

  /** The guard leaves a fitted network, trains only an unfitted one, and a second call changes
      nothing: the network is fitted at most once, on the data of the first call. */
  lemma FitOnce(s: Snapshot, trainer: Trainer, X: seq<Vec>, y: seq<Vec>, warmup: int,
                X': seq<Vec>, y': seq<Vec>, warmup': int)
    ensures GuardedFit(s, trainer, X, y, warmup).fitted
    ensures s.fitted ==> GuardedFit(s, trainer, X, y, warmup) == s
    ensures !s.fitted ==> (GuardedFit(s, trainer, X, y, warmup).step, GuardedFit(s, trainer, X, y, warmup).hidden)
                          == trainer(s.step, X, y, warmup)
    ensures GuardedFit(GuardedFit(s, trainer, X, y, warmup), trainer, X', y', warmup')
            == GuardedFit(s, trainer, X, y, warmup)
  {
  }

  /** `X[:-memory]`: the rows replayed before the rollout. */
  function WarmupRows(X: seq<Vec>, memory: int): seq<Vec>
  {
    Slice(X, 0, -memory)
  }

  /** What `forecast(forecast_len, memory)` returns for a network with update rule `step` and reset
      state `initial`: an error when the replay is empty, else the closed loop of `n` steps that
      starts from the replay's final state and last output. */
  function ForecastResult(step: Step, initial: Vec, X: seq<Vec>, memory: int, n: nat): Result<seq<Vec>>
  {
    var warm := Replay(step, initial, WarmupRows(X, memory));
    if warm.1 == [] then Err(EmptyWarmup)
    else Ok(ClosedLoop(step, warm.0, warm.1[|warm.1| - 1], n).1)
  }

  /** The recurrent state `forecast` leaves the network in. */
  function ForecastState(step: Step, initial: Vec, X: seq<Vec>, memory: int, n: nat): Vec
  {
    var warm := Replay(step, initial, WarmupRows(X, memory));
    if warm.1 == [] then warm.0
    else ClosedLoop(step, warm.0, warm.1[|warm.1| - 1], n).0
  }

  /** A forecast fails exactly when `memory` leaves nothing to replay (`memory == 0` included,
      since `X[:-0]` is empty); otherwise it holds exactly `n` values, none when `n == 0`. */
  lemma ForecastShape(step: Step, initial: Vec, X: seq<Vec>, memory: int, n: nat)
    requires memory >= 0
    ensures ForecastResult(step, initial, X, memory, n).Err? <==> !(0 < memory < |X|)
    ensures ForecastResult(step, initial, X, memory, n).Ok? ==> |ForecastResult(step, initial, X, memory, n).value| == n
  {
    DropLast(X, memory);
  }

  /** A successful forecast is a rollout whose first input is the last replay output and whose later
      inputs are its own previous outputs; it does not depend on the state before the call. */
  lemma ForecastIsRollout(step: Step, initial: Vec, X: seq<Vec>, memory: int, n: nat,
                          warmState: Vec, warmOut: seq<Vec>, last: Vec)
    requires (warmState, warmOut) == Replay(step, initial, WarmupRows(X, memory))
    requires warmOut != [] && warmOut[|warmOut| - 1] == last
    ensures ForecastResult(step, initial, X, memory, n).Ok?
    ensures exists hs :: IsRollout(step, warmState, last, ForecastResult(step, initial, X, memory, n).value, hs)
  {
    ClosedLoopIsRollout(step, warmState, last, n);
  }

  class Forecaster {
    var model: Network
    var X: seq<Vec>
    var y: seq<Vec>

    /** Stores the network, the rows and the targets as given. */
    constructor (esn: Network, X: seq<Vec>, y: seq<Vec>)
      ensures model == esn && this.X == X && this.y == y
    {
      this.X := X;
      this.y := y;
      model := esn;
    }

    /** `fit(warmup)`: calls the library's fit only when the network is not fitted yet, and keeps
        the network it returns. */
    method Fit(warmup: int := 10)
      modifies this, model
      ensures model == old(model) && X == old(X) && y == old(y)
      ensures model.Observe() == GuardedFit(old(model.Observe()), model.trainer, X, y, warmup)
      ensures model.steps == old(model.steps)
    {
      if !model.fitted {
        model := model.Fit(X, y, warmup);
      }
    }

    /** `forecast(forecast_len, memory)`: resets and replays `X[:-memory]`, then fills `ypred` by
        feeding each output back as the next input, starting from the last replay output. That
        generation loop is the same loop as the stand-alone `forecast` and is modelled once, by
        `Models.Forecast`. */
    method Forecast(forecastLen: nat, memory: int := 52) returns (r: Result<seq<Vec>>)
      modifies model
      ensures r == ForecastResult(old(model.step), model.initial, X, memory, forecastLen)
      ensures model.hidden == ForecastState(old(model.step), model.initial, X, memory, forecastLen)
      ensures model.fitted == old(model.fitted) && model.step == old(model.step)
      ensures model.steps == old(model.steps) + |WarmupRows(X, memory)| + (if r.Ok? then forecastLen else 0)
    {
      var m := model;
      var warmupY := m.Run(Slice(X, 0, -memory), true);
      if |warmupY| == 0 {
        r := Err(EmptyWarmup);
        return;
      }
      var ypred := Models.Forecast(m, forecastLen, memory, warmupY[|warmupY| - 1]);
      r := Ok(ypred[..]);
    }
  }
}
