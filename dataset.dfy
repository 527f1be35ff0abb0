/** Sliding-window training pairs built from a one-dimensional series (`create_training_data`).
    The construction follows the array code: a grid of indices `i + j` is built, flattened,
    used to gather values from the series and reshaped into `numSamples` rows. */
module Dataset {

  /** Rows of features `X` and the target `y` that follows each row. */
  datatype TrainingData<T> = TrainingData(X: seq<seq<T>>, y: seq<T>)

  /** `arange(ns).reshape(-1, 1) + arange(nf)`: row `i` holds the indices `i, i + 1, ..., i + nf - 1`. */
  function IndexGrid(ns: nat, nf: nat): (grid: seq<seq<nat>>)
  {
    seq(ns, i => seq(nf, j => i + j))
  }

  /** Row-major flattening of a two-dimensional array. */
  function Flatten<T>(rows: seq<seq<T>>): (flat: seq<T>)
  {
    if rows == [] then [] else rows[0] + Flatten(rows[1..])
  }

  /** Every position listed in `idx` is below `n`. */
  predicate Within(idx: seq<nat>, n: nat)
  {
    forall k :: 0 <= k < |idx| ==> idx[k] < n
  }

  /** Fancy indexing `ts[idx]`: the values of `ts` at the positions listed in `idx`. */
  function Take<T>(ts: seq<T>, idx: seq<nat>): (vals: seq<T>)
    requires Within(idx, |ts|)
    ensures |vals| == |idx|
  {
    seq(|idx|, k requires 0 <= k < |idx| => ts[idx[k]])
  }

  /** `flat.reshape(ns, nf)`: consecutive blocks of `nf` values become the rows. */
  function Reshape<T>(flat: seq<T>, ns: nat, nf: nat): (rows: seq<seq<T>>)
    requires |flat| == ns * nf
    ensures |rows| == ns
  {
    if ns == 0 then []
    else
      assert ns * nf == (ns - 1) * nf + nf;
      [flat[..nf]] + Reshape(flat[nf..], ns - 1, nf)
  }

  /** A grid whose rows all have `nf` entries flattens to `|rows| * nf` entries, and taking values at
      the flattened positions is the flattening of taking them row by row. */
  lemma {:induction false} TakeFlatten<T>(ts: seq<T>, rows: seq<seq<nat>>, nf: nat)
    requires forall i :: 0 <= i < |rows| ==> |rows[i]| == nf
    requires forall i :: 0 <= i < |rows| ==> Within(rows[i], |ts|)
    ensures |Flatten(rows)| == |rows| * nf
    ensures Within(Flatten(rows), |ts|)
    ensures Take(ts, Flatten(rows)) == Flatten(seq(|rows|, i requires 0 <= i < |rows| => Take(ts, rows[i])))
  {
    if rows != [] {
      TakeFlatten(ts, rows[1..], nf);
      assert Within(rows[0] + Flatten(rows[1..]), |ts|) by {
        var a, b := rows[0], Flatten(rows[1..]);
        forall k | 0 <= k < |a + b| ensures (a + b)[k] < |ts| {
          if k < |a| { assert (a + b)[k] == a[k]; } else { assert (a + b)[k] == b[k - |a|]; }
        }
      }
      assert |rows| * nf == (|rows| - 1) * nf + nf;
      var tail := seq(|rows| - 1, i requires 0 <= i < |rows| - 1 => Take(ts, rows[1..][i]));
      var all := seq(|rows|, i requires 0 <= i < |rows| => Take(ts, rows[i]));
      assert all[1..] == tail;
      assert Take(ts, rows[0] + Flatten(rows[1..])) == Take(ts, rows[0]) + Take(ts, Flatten(rows[1..]));
    }
  }

  /** Reshaping undoes flattening when every row has `nf` entries. */
  lemma {:induction false} ReshapeFlatten<T>(rows: seq<seq<T>>, nf: nat)
    requires forall i :: 0 <= i < |rows| ==> |rows[i]| == nf
    ensures |Flatten(rows)| == |rows| * nf
    ensures Reshape(Flatten(rows), |rows|, nf) == rows
  {
    if rows != [] {
      ReshapeFlatten(rows[1..], nf);
      assert |rows| * nf == (|rows| - 1) * nf + nf;
      var flat := Flatten(rows);
      assert flat[..nf] == rows[0];
      assert flat[nf..] == Flatten(rows[1..]);
      assert rows == [rows[0]] + rows[1..];
    }
  }

  /** `create_training_data(ts, nf)`: `X[i]` is the window `ts[i .. i + nf)` and `y[i]` the value
      right after it, for each of the `|ts| - nf` samples. */
  function CreateTrainingData<T>(ts: seq<T>, nf: nat): (d: TrainingData<T>)
    requires nf <= |ts|
    ensures |d.X| == |d.y| == |ts| - nf
    ensures forall i :: 0 <= i < |d.X| ==> d.X[i] == ts[i..i + nf]
    ensures forall i :: 0 <= i < |d.y| ==> d.y[i] == ts[i + nf]
  {
    var numSamples := |ts| - nf;
    var grid := IndexGrid(numSamples, nf);
    TakeFlatten(ts, grid, nf);
    var windows := seq(numSamples, i requires 0 <= i < numSamples => Take(ts, grid[i]));
    ReshapeFlatten(windows, nf);
    var X := Reshape(Take(ts, Flatten(grid)), numSamples, nf);
    assert forall i :: 0 <= i < numSamples ==> X[i] == ts[i..i + nf];
    TrainingData(X, ts[nf..])
  }

  /** A row followed by its target is the window of width `nf + 1` at the same position:
      `y[i]` is the value immediately following `X[i]`. */
  lemma TargetFollowsRow<T>(ts: seq<T>, nf: nat, i: nat)
    requires nf <= |ts| && i < |ts| - nf
    ensures CreateTrainingData(ts, nf).X[i] + [CreateTrainingData(ts, nf).y[i]] == ts[i..i + nf + 1]
  {
    assert ts[i..i + nf + 1] == ts[i..i + nf] + [ts[i + nf]];
  }

  /** Consecutive rows slide by one: the next row drops the oldest value and appends the target. */
  lemma RowsSlideByOne<T>(ts: seq<T>, nf: nat, i: nat)
    requires 1 <= nf <= |ts| && i + 1 < |ts| - nf
    ensures CreateTrainingData(ts, nf).X[i + 1] == CreateTrainingData(ts, nf).X[i][1..] + [CreateTrainingData(ts, nf).y[i]]
  {
    var d := CreateTrainingData(ts, nf);
    assert d.X[i][1..] == ts[i + 1..i + nf];
    assert ts[i + 1..i + 1 + nf] == ts[i + 1..i + nf] + [ts[i + nf]];
  }

  /** The last value of the series is in no row; it appears only as the last target.
      With as many features as values there are no samples at all. */
  lemma LastValueOnlyTarget<T>(ts: seq<T>, nf: nat)
    requires nf <= |ts|
    ensures |ts| == nf ==> CreateTrainingData(ts, nf) == TrainingData([], [])
    ensures forall i :: 0 <= i < |CreateTrainingData(ts, nf).X| ==>
      CreateTrainingData(ts, nf).X[i] == ts[..|ts| - 1][i..i + nf]
    ensures |ts| > nf ==> CreateTrainingData(ts, nf).y[|ts| - nf - 1] == ts[|ts| - 1]
  {
  }
}
