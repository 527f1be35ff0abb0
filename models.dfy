/** The stand-alone `forecast` helper: a closed-loop rollout from a caller-supplied first input,
    on a network whose state the caller has prepared. The network wiring done at module level
    (reservoir, ridge readout, feedback) is the library's and is not modelled. */
module Models {
  import opened Esn

  /** `forecast(model, forecast_len, memory, x, warmup)`: calls the network `forecastLen` times,
      each time on the previous output (on `x` the first time), and stores the outputs in order.
      `memory` and `warmup` are accepted and never read, so nothing here depends on them. */
  method Forecast(model: Network, forecastLen: nat, memory: int, x: Vec, warmup: int := 10)
    returns (ypred: array<Vec>)
    modifies model
    ensures fresh(ypred) && ypred.Length == forecastLen
    ensures (model.hidden, ypred[..]) == ClosedLoop(old(model.step), old(model.hidden), x, forecastLen)
    ensures model.fitted == old(model.fitted) && model.step == old(model.step)
    ensures model.steps == old(model.steps) + forecastLen
  {
    ypred := new Vec[forecastLen];
    var input := x;
    ghost var step := model.step;
    ghost var whole := ClosedLoop(step, model.hidden, x, forecastLen);
    for i := 0 to forecastLen
      invariant model.step == step && model.fitted == old(model.fitted)
      invariant model.steps == old(model.steps) + i
      invariant ypred[..i] + ClosedLoop(step, model.hidden, input, forecastLen - i).1 == whole.1
      invariant ClosedLoop(step, model.hidden, input, forecastLen - i).0 == whole.0
    {
      ClosedLoopStep(step, model.hidden, input, forecastLen - i);
      input := model.Call(input);
      ypred[i] := input;
      assert ypred[..i + 1] == ypred[..i] + [input];
    }
    assert ypred[..] == ypred[..forecastLen];
    assert ClosedLoop(step, model.hidden, input, 0) == (model.hidden, []);
    assert ypred[..] == whole.1;
    assert model.hidden == whole.0;
    assert whole == ClosedLoop(old(model.step), old(model.hidden), x, forecastLen);
  }
}
