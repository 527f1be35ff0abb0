/** Sequence slicing with the conventions of Python's `xs[lo:hi]`: a negative bound counts
    from the end of the sequence, and every bound is clamped into `[0, |xs|]`. */
module Slicing {

  /** A slice bound `i` resolved against a sequence of length `n`. */
  function Bound(n: nat, i: int): (b: nat)
    ensures b <= n
  {
    if i < 0 then (if n + i < 0 then 0 else n + i)
    else if i > n then n
    else i
  }

  /** `xs[lo:hi]`: the elements between the two resolved bounds, or nothing when they cross. */
  function Slice<T>(xs: seq<T>, lo: int, hi: int): (r: seq<T>)
    ensures |r| <= |xs|
    ensures 0 <= lo <= hi <= |xs| ==> r == xs[lo..hi]
    ensures 0 <= lo <= |xs| <= hi ==> r == xs[lo..]
    ensures 0 <= hi <= lo ==> r == []
  {
    var a := Bound(|xs|, lo);
    var b := Bound(|xs|, hi);
    if a < b then xs[a..b] else []
  }

  /** `xs[-m:]` takes the last `m` elements, or all of them when there are fewer; `m == 0` also
      gives all of them (because `-0 == 0`). */
  lemma LastElements<T>(xs: seq<T>, m: nat)
    ensures Slice(xs, -(m as int), |xs|) == if 0 < m <= |xs| then xs[|xs| - m..] else xs
  {
  }

  /** `xs[:-m]` drops the last `m` elements; `m == 0` gives the empty slice (because `-0 == 0`),
      and so does any `m` at least `|xs|`. */
  lemma DropLast<T>(xs: seq<T>, m: int)
    requires m >= 0
    ensures Slice(xs, 0, -m) == if 0 < m < |xs| then xs[..|xs| - m] else []
  {
  }
}
