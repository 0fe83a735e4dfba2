/**
 Shared vocabulary of the route-risk model: the failures the service can
 raise, a result type carrying them, and sums and means over reals.
 */
module Basics {

  /** The Python exceptions that abort a request in the service. */
  datatype Failure =
    | IndexError         // indexing the point list of a step that decoded to nothing
    | ZeroDivisionError  // a step with no inference rows, or one checkpoint asked for
    | ValueError         // `min` over an empty list of candidate routes

  datatype Result<+T> = Ok(value: T) | Err(error: Failure)

  datatype Option<+T> = None | Some(value: T)

  lemma SplitAt<T>(s: seq<T>, i: nat)
    requires i <= |s|
    ensures s[..i] + s[i..] == s
  {
  }

  /** Left-to-right sum, the order in which the service accumulates. */
  function Sum(xs: seq<real>): real
  {
    if |xs| == 0 then 0.0 else Sum(xs[..|xs| - 1]) + xs[|xs| - 1]
  }

  lemma {:induction false} SumBounds(xs: seq<real>, lo: real, hi: real)
    requires forall i :: 0 <= i < |xs| ==> lo <= xs[i] <= hi
    ensures lo * |xs| as real <= Sum(xs) <= hi * |xs| as real
  {
    if |xs| > 0 {
      SumBounds(xs[..|xs| - 1], lo, hi);
    }
  }

  lemma {:induction false} SumAbove(xs: seq<real>, lo: real)
    requires |xs| > 0
    requires forall i :: 0 <= i < |xs| ==> lo < xs[i]
    ensures lo * |xs| as real < Sum(xs)
  {
    if |xs| > 1 {
      SumAbove(xs[..|xs| - 1], lo);
    }
  }

  /** A mean of values that all lie in [lo, hi] lies in [lo, hi]. */
  lemma MeanBounds(xs: seq<real>, lo: real, hi: real)
    requires |xs| > 0
    requires forall i :: 0 <= i < |xs| ==> lo <= xs[i] <= hi
    ensures lo <= Sum(xs) / |xs| as real <= hi
  {
    SumBounds(xs, lo, hi);
    var n := |xs| as real;
    assert Sum(xs) == (Sum(xs) / n) * n;
  }

  /** A mean of values that all exceed lo exceeds lo. */
  lemma MeanAbove(xs: seq<real>, lo: real)
    requires |xs| > 0
    requires forall i :: 0 <= i < |xs| ==> lo < xs[i]
    ensures lo < Sum(xs) / |xs| as real
  {
    SumAbove(xs, lo);
  }
}
