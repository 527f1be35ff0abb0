/** The denoising driver `denoise_time_series`: a list of series-to-series processors applied
    one after the other. The processors themselves (weekly resampling, the rolling-deviation
    filter, Holt-Winters smoothing) are opaque functions here. */
module Denoising {

  /** The series after `processors` have been applied in list order, the last one last:
      `p_n(...p_2(p_1(ts)))`. */
  function Pipeline<S>(ts: S, processors: seq<S -> S>): S
    decreases |processors|
  {
    if processors == [] then ts
    else processors[|processors| - 1](Pipeline(ts, processors[..|processors| - 1]))
  }

  /** Running the processors of `a + b` is running those of `a` and then those of `b` on the result. */
  lemma {:induction false} PipelineSplit<S>(ts: S, a: seq<S -> S>, b: seq<S -> S>)
    ensures Pipeline(ts, a + b) == Pipeline(Pipeline(ts, a), b)
    decreases |b|
  {
    if b == [] {
      assert a + b == a;
    } else {
      var n := |b| - 1;
      PipelineSplit(ts, a, b[..n]);
      assert (a + b)[..|a + b| - 1] == a + b[..n];
    }
  }

  /** The first processor of the list sees the input series, and the rest run on its output;
      with no processors the input comes back unchanged. */
  lemma {:induction false} PipelineFirst<S>(ts: S, p: S -> S, rest: seq<S -> S>)
    ensures Pipeline(ts, []) == ts
    ensures Pipeline(ts, [p]) == p(ts)
    ensures Pipeline(ts, [p] + rest) == Pipeline(p(ts), rest)
  {
    assert Pipeline(ts, [p]) == p(Pipeline(ts, [p][..0]));
    assert [p][..0] == [];
    PipelineSplit(ts, [p], rest);
  }

  /** `denoise_time_series`: starts from the input series and reassigns the running series to
      each processor's output in turn. The input is a value, so the caller's series is left as
      it was (the source works on a copy for the same reason). */
  method DenoiseTimeSeries<S>(timeSeries: S, processors: seq<S -> S>) returns (denoised: S)
    ensures denoised == Pipeline(timeSeries, processors)
  {
    denoised := timeSeries;
    for i := 0 to |processors|
      invariant denoised == Pipeline(timeSeries, processors[..i])
    {
      assert processors[..i + 1][..i] == processors[..i];
      denoised := processors[i](denoised);
    }
    assert processors[..|processors|] == processors;
  }
}
