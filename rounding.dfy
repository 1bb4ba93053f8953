/**
 * Decimal rounding over exact reals.
 *
 * JavaScript's `Math.round` and Python's `round(x, n)` act on binary doubles;
 * the model rounds the exact value half up (see README for the tie rule).
 */
module Rounding {

  /** 10 to the power `digits`, for the place counts the system uses. */
  function Scale(digits: nat): (p: real)
    requires digits <= 4
    ensures p >= 1.0
  {
    if digits == 0 then 1.0 else if digits == 1 then 10.0 else if digits == 2 then 100.0
    else if digits == 3 then 1000.0 else 10000.0
  }

  /** `Math.round(x)`: the integer nearest to `x`, halves rounded up. */
  function RoundHalfUp(x: real): (r: int)
    ensures x - 0.5 < r as real <= x + 0.5
  {
    (x + 0.5).Floor
  }

  /** Rounds `x` to `digits` decimal places. */
  function RoundTo(x: real, digits: nat): real
    requires digits <= 4
  {
    RoundHalfUp(x * Scale(digits)) as real / Scale(digits)
  }

  /** Rounding never moves an integer. */
  lemma RoundHalfUpInt(n: int)
    ensures RoundHalfUp(n as real) == n
  {
  }

  /** Rounding to the nearest integer is monotone. */
  lemma RoundHalfUpMonotone(x: real, y: real)
    requires x <= y
    ensures RoundHalfUp(x) <= RoundHalfUp(y)
  {
  }

  /** A value between two integers rounds to an integer between them. */
  lemma RoundHalfUpBetween(x: real, lo: int, hi: int)
    requires lo as real <= x <= hi as real
    ensures lo <= RoundHalfUp(x) <= hi
  {
    RoundHalfUpMonotone(lo as real, x);
    RoundHalfUpMonotone(x, hi as real);
  }

  lemma ScaleMonotone(x: real, y: real, p: real)
    requires x <= y && p > 0.0
    ensures x * p <= y * p
  {
    assert y * p - x * p == (y - x) * p;
  }

  lemma DivideMonotone(a: real, b: real, p: real)
    requires a <= b && p > 0.0
    ensures a / p <= b / p
  {
    assert b / p - a / p == (b - a) / p;
  }

  lemma ScaledRoundMonotone(x: real, y: real, p: real)
    requires x <= y && p > 0.0
    ensures RoundHalfUp(x * p) <= RoundHalfUp(y * p)
  {
    ScaleMonotone(x, y, p);
    RoundHalfUpMonotone(x * p, y * p);
  }

  /** Rounding to decimal places is monotone. */
  lemma RoundToMonotone(x: real, y: real, digits: nat)
    requires x <= y && digits <= 4
    ensures RoundTo(x, digits) <= RoundTo(y, digits)
  {
    var p := Scale(digits);
    ScaledRoundMonotone(x, y, p);
    var a, b := RoundHalfUp(x * p) as real, RoundHalfUp(y * p) as real;
    assert a <= b;
    DivideMonotone(a, b, p);
    assert RoundTo(x, digits) == a / p && RoundTo(y, digits) == b / p;
  }

  /** Rounding leaves integers unchanged. */
  lemma RoundToInt(n: int, digits: nat)
    requires digits <= 4
    ensures RoundTo(n as real, digits) == n as real
  {
    var p := Scale(digits);
    var m := ScaledInt(n, digits);
    RoundHalfUpInt(m);
    CancelScale(n as real, p);
  }

  /** An integer times a power of ten is an integer. */
  lemma ScaledInt(n: int, digits: nat) returns (m: int)
    requires digits <= 4
    ensures n as real * Scale(digits) == m as real
  {
    var k: int := if digits == 0 then 1 else if digits == 1 then 10 else if digits == 2 then 100
      else if digits == 3 then 1000 else 10000;
    assert Scale(digits) == k as real;
    m := n * k;
  }

  lemma CancelScale(x: real, p: real)
    requires p > 0.0
    ensures (x * p) / p == x
  {
  }

  /** A value between two integers rounds to a value between them. */
  lemma RoundToBetween(x: real, digits: nat, lo: int, hi: int)
    requires lo as real <= x <= hi as real && digits <= 4
    ensures lo as real <= RoundTo(x, digits) <= hi as real
  {
    RoundToMonotone(lo as real, x, digits);
    RoundToMonotone(x, hi as real, digits);
    RoundToInt(lo, digits);
    RoundToInt(hi, digits);
  }
}
