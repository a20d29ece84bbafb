/**
 Shared vocabulary of the model: optional values and results, the numeric
 conversions the Rust and Python code performs on prices (`as i64`, `round`,
 integer division), and sums over sequences of reals.

 Prices, volumes and metrics that are `f64` in the source are `real` here;
 NaN and infinities are not modelled, except the one place where the source
 deliberately produces an infinite profit factor (see `Ratio`).
 */
module Base {

  datatype Option<T> = None | Some(value: T)
  {
    predicate IsSome() { Some? }
  }

  datatype Result<T> = Ok(value: T) | Err(msg: string)

  /** A ratio that may be infinite: profit factors become `f64::INFINITY` when there is profit but no loss. */
  datatype Ratio = Finite(r: real) | Infinite

  function Abs(x: real): (r: real)
    ensures r >= 0.0
    ensures r == x || r == -x
  {
    if x < 0.0 then -x else x
  }

  function IntAbs(x: int): (r: nat)
    ensures r == x || r == -x
  {
    if x < 0 then -x else x
  }

  function Max(a: real, b: real): (r: real)
    ensures r >= a && r >= b
    ensures r == a || r == b
  {
    if a >= b then a else b
  }

  function Min(a: real, b: real): (r: real)
    ensures r <= a && r <= b
    ensures r == a || r == b
  {
    if a <= b then a else b
  }

  function MinNat(a: nat, b: nat): (r: nat)
    ensures r <= a && r <= b
    ensures r == a || r == b
  {
    if a <= b then a else b
  }

  /** Rust `x as i64` on a finite float: the fractional part is dropped, rounding toward zero. */
  function Trunc(x: real): (r: int)
    ensures x >= 0.0 ==> r as real <= x < r as real + 1.0
    ensures x < 0.0 ==> r as real - 1.0 < x <= r as real
    ensures IntAbs(r) as real <= Abs(x)
  {
    if x >= 0.0 then x.Floor else -((-x).Floor)
  }

  /** Rust `f64::round`: nearest integer, halves rounded away from zero. */
  function Round(x: real): (r: int)
    ensures Abs(x - r as real) <= 0.5
    ensures x >= 0.0 ==> r >= 0
    ensures x <= 0.0 ==> r <= 0
  {
    if x >= 0.0 then (x + 0.5).Floor else -((-x + 0.5).Floor)
  }

  /** Rust `a / 2` on a signed integer: the quotient is truncated toward zero (Dafny's `/` is Euclidean). */
  function HalfTrunc(a: int): (q: int)
    ensures a >= 0 ==> 0 <= q && 2 * q <= a <= 2 * q + 1
    ensures a < 0 ==> q <= 0 && 2 * q - 1 <= a <= 2 * q
  {
    if a >= 0 then a / 2 else -((-a) / 2)
  }

  /** Rust `usize::saturating_sub`. */
  function SaturatingSub(a: nat, b: nat): (r: nat)
    ensures r == 0 || r + b == a
    ensures r <= a
  {
    if a >= b then a - b else 0
  }

  function Sum(xs: seq<real>): real
  {
    if |xs| == 0 then 0.0 else Sum(xs[..|xs| - 1]) + xs[|xs| - 1]
  }

  lemma {:induction false} SumAppend(xs: seq<real>, ys: seq<real>)
    ensures Sum(xs + ys) == Sum(xs) + Sum(ys)
    decreases |ys|
  {
    if |ys| == 0 {
      assert xs + ys == xs;
    } else {
      assert (xs + ys)[..|xs + ys| - 1] == xs + ys[..|ys| - 1];
      SumAppend(xs, ys[..|ys| - 1]);
    }
  }

  lemma {:induction false} SumNonNegative(xs: seq<real>)
    requires forall i :: 0 <= i < |xs| ==> xs[i] >= 0.0
    ensures Sum(xs) >= 0.0
    decreases |xs|
  {
    if |xs| > 0 {
      SumNonNegative(xs[..|xs| - 1]);
    }
  }

  function IntSum(xs: seq<int>): int
  {
    if |xs| == 0 then 0 else IntSum(xs[..|xs| - 1]) + xs[|xs| - 1]
  }

  lemma {:induction false} IntSumAppend(xs: seq<int>, ys: seq<int>)
    ensures IntSum(xs + ys) == IntSum(xs) + IntSum(ys)
    decreases |ys|
  {
    if |ys| == 0 {
      assert xs + ys == xs;
    } else {
      assert (xs + ys)[..|xs + ys| - 1] == xs + ys[..|ys| - 1];
      IntSumAppend(xs, ys[..|ys| - 1]);
    }
  }

  function Pow10(k: nat): (r: nat)
    ensures r >= 1
  {
    if k == 0 then 1 else 10 * Pow10(k - 1)
  }
}
