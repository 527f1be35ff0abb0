/** The Echo State Network as the rest of the system sees it: an object holding a recurrent
    state, advanced one input at a time by an opaque step function, plus the library's offline
    training and the `fitted` flag. Reservoir dynamics and ridge regression are not modelled;
    they are whatever `step` and `trainer` are. */
module Esn {

  /** One input or output vector of the network. */
  type Vec = seq<real>

  /** One network update: from the recurrent state and an input to the next state and the output. */
  type Step = (Vec, Vec) -> (Vec, Vec)

  /** The library's offline fit: from the current update rule, training inputs, targets and warmup
      length to the trained update rule and the recurrent state training leaves behind. */
  type Trainer = (Step, seq<Vec>, seq<Vec>, int) -> (Step, Vec)

  /** The observable state of a network: whether it was fitted, its update rule, its recurrent state. */
  datatype Snapshot = Snapshot(fitted: bool, step: Step, hidden: Vec)

  /** Replay mode (`run`): feeds the rows `xs` one after the other from recurrent state `hidden`,
      giving the final state and one output per row. */
  function Replay(step: Step, hidden: Vec, xs: seq<Vec>): (r: (Vec, seq<Vec>))
    ensures |r.1| == |xs|
    decreases |xs|
  {
    if xs == [] then (hidden, [])
    else
      var next := step(hidden, xs[0]);
      var rest := Replay(step, next.0, xs[1..]);
      (rest.0, [next.1] + rest.1)
  }

  /** Generative (closed-loop) mode: `n` steps from recurrent state `hidden` and first input `x`,
      each later input being the previous output. Gives the final state and the `n` outputs. */
  function ClosedLoop(step: Step, hidden: Vec, x: Vec, n: nat): (r: (Vec, seq<Vec>))
    ensures |r.1| == n
    decreases n
  {
    if n == 0 then (hidden, [])
    else
      var next := step(hidden, x);
      var rest := ClosedLoop(step, next.0, next.1, n - 1);
      (rest.0, [next.1] + rest.1)
  }

  /** One step of the closed loop followed by the remaining `n - 1`. */
  lemma ClosedLoopStep(step: Step, hidden: Vec, x: Vec, n: nat)
    requires n > 0
    ensures ClosedLoop(step, hidden, x, n).0 == ClosedLoop(step, step(hidden, x).0, step(hidden, x).1, n - 1).0
    ensures ClosedLoop(step, hidden, x, n).1 == [step(hidden, x).1] + ClosedLoop(step, step(hidden, x).0, step(hidden, x).1, n - 1).1
  {
  }

  /** The input of closed-loop step `i`: the given first input, then the previous output. */
  function LoopInput(x: Vec, ys: seq<Vec>, i: nat): Vec
    requires i <= |ys|
  {
    if i == 0 then x else ys[i - 1]
  }

  /** `ys` is a closed-loop run from state `h` and first input `x`, passing through the states `hs`:
      every step `i` maps state `hs[i]` and input `LoopInput(x, ys, i)` to state `hs[i + 1]` and
      output `ys[i]`. */
  ghost predicate IsRollout(step: Step, h: Vec, x: Vec, ys: seq<Vec>, hs: seq<Vec>)
  {
    |hs| == |ys| + 1 && hs[0] == h &&
    forall i :: 0 <= i < |ys| ==> step(hs[i], LoopInput(x, ys, i)) == (hs[i + 1], ys[i])
  }

  /** The closed loop is a rollout: its first output is the network applied to `x`, and every later
      output is the network applied to the output before it. */
  lemma {:induction false} ClosedLoopIsRollout(step: Step, h: Vec, x: Vec, n: nat)
    ensures exists hs :: IsRollout(step, h, x, ClosedLoop(step, h, x, n).1, hs) && hs[n] == ClosedLoop(step, h, x, n).0
    decreases n
  {
    if n == 0 {
      assert IsRollout(step, h, x, [], [h]);
    } else {
      var next := step(h, x);
      ClosedLoopIsRollout(step, next.0, next.1, n - 1);
      var rest := ClosedLoop(step, next.0, next.1, n - 1);
      var hs' :| IsRollout(step, next.0, next.1, rest.1, hs') && hs'[n - 1] == rest.0;
      var ys := ClosedLoop(step, h, x, n).1;
      var hs := [h] + hs';
      assert ys == [next.1] + rest.1;
      forall i | 0 <= i < |ys|
        ensures step(hs[i], LoopInput(x, ys, i)) == (hs[i + 1], ys[i])
      {
        if i > 0 {
          assert LoopInput(x, ys, i) == LoopInput(next.1, rest.1, i - 1);
        }
      }
      assert IsRollout(step, h, x, ys, hs);
    }
  }

  /** A rollout is determined by its start: any run that feeds each output back as the next input
      produces exactly the closed-loop outputs and ends in the closed-loop final state. */
  lemma {:induction false} RolloutIsClosedLoop(step: Step, h: Vec, x: Vec, ys: seq<Vec>, hs: seq<Vec>)
    requires IsRollout(step, h, x, ys, hs)
    ensures ys == ClosedLoop(step, h, x, |ys|).1
    ensures hs[|ys|] == ClosedLoop(step, h, x, |ys|).0
    decreases |ys|
  {
    if ys != [] {
      assert step(hs[0], LoopInput(x, ys, 0)) == (hs[1], ys[0]);
      forall i | 0 <= i < |ys| - 1
        ensures step(hs[1..][i], LoopInput(ys[0], ys[1..], i)) == (hs[1..][i + 1], ys[1..][i])
      {
        assert step(hs[i + 1], LoopInput(x, ys, i + 1)) == (hs[i + 2], ys[i + 1]);
      }
      RolloutIsClosedLoop(step, hs[1], ys[0], ys[1..], hs[1..]);
      assert ys == [ys[0]] + ys[1..];
    }
  }

  /** A network instance. `step` and `fitted` change only through `Fit`; `hidden` advances with
      every call; `steps` counts the single-step advances made so far. */
  class Network {
    var fitted: bool
    var step: Step
    var hidden: Vec
    /** The recurrent state a reset returns to. */
    const initial: Vec
    /** The library's training procedure. */
    const trainer: Trainer
    ghost var steps: nat

    function Observe(): (s: Snapshot)
      reads this
    {
      Snapshot(fitted, step, hidden)
    }

    constructor (step: Step, initial: Vec, trainer: Trainer)
      ensures !fitted && this.step == step && hidden == initial
      ensures this.initial == initial && this.trainer == trainer && steps == 0
    {
      fitted := false;
      this.step := step;
      hidden := initial;
      this.initial := initial;
      this.trainer := trainer;
      steps := 0;
    }

    /** `model(x)`: one step on input `x`, advancing the recurrent state. */
    method Call(x: Vec) returns (y: Vec)
      modifies this
      ensures (hidden, y) == old(step)(old(hidden), x)
      ensures fitted == old(fitted) && step == old(step) && steps == old(steps) + 1
    {
      var next := step(hidden, x);
      hidden := next.0;
      y := next.1;
      steps := steps + 1;
    }

    /** `model.run(xs, reset=reset)`: replays the rows `xs`, from the reset state when `reset`. */
    method Run(xs: seq<Vec>, reset: bool) returns (ys: seq<Vec>)
      modifies this
      ensures (hidden, ys) == Replay(old(step), if reset then initial else old(hidden), xs)
      ensures fitted == old(fitted) && step == old(step) && steps == old(steps) + |xs|
    {
      var r := Replay(step, if reset then initial else hidden, xs);
      hidden := r.0;
      ys := r.1;
      steps := steps + |xs|;
    }

    /** `model.fit(X, Y, warmup=warmup)`: trains offline, marks the network fitted and returns it. */
    method Fit(X: seq<Vec>, Y: seq<Vec>, warmup: int) returns (self: Network)
      modifies this
      ensures self == this && fitted
      ensures (step, hidden) == trainer(old(step), X, Y, warmup)
      ensures steps == old(steps)
    {
      var r := trainer(step, X, Y, warmup);
      step := r.0;
      hidden := r.1;
      fitted := true;
      self := this;
    }
  }
}
