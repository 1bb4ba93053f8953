/**
 * JavaScript numbers as the screens use them, over exact reals: a finite
 * value, the two infinities a division by zero yields, and NaN (0 / 0).
 * Comparisons with NaN are false, and `x || 0` turns NaN and 0 into 0.
 */
module JsNumber {
  import opened Rounding

  datatype Num = Finite(value: real) | PosInf | NegInf | NaN

  /** `a / b`. */
  function Divide(a: real, b: real): (r: Num)
    ensures b != 0.0 ==> r == Finite(a / b)
    ensures b == 0.0 ==> (r.NaN? <==> a == 0.0) && (r.PosInf? <==> a > 0.0) && (r.NegInf? <==> a < 0.0)
  {
    if b != 0.0 then Finite(a / b)
    else if a > 0.0 then PosInf
    else if a < 0.0 then NegInf
    else NaN
  }

  /** `n * k` for a positive constant `k`. */
  function Times(n: Num, k: real): (r: Num)
    requires k > 0.0
    ensures n.Finite? <==> r.Finite?
    ensures n.Finite? ==> r.value == n.value * k
  {
    if n.Finite? then Finite(n.value * k) else n
  }

  /** `k - n`. */
  function Minus(k: real, n: Num): (r: Num)
    ensures n.Finite? ==> r == Finite(k - n.value)
    ensures n.NaN? <==> r.NaN?
  {
    match n
    case Finite(v) => Finite(k - v)
    case PosInf => NegInf
    case NegInf => PosInf
    case NaN => NaN
  }

  /** `Math.round(n)`. */
  function Round(n: Num): (r: Num)
    ensures n.Finite? ==> r == Finite(RoundHalfUp(n.value) as real)
    ensures !n.Finite? ==> r == n
  {
    if n.Finite? then Finite(RoundHalfUp(n.value) as real) else n
  }

  /** `n || 0`: NaN and zero are falsy and become 0. */
  function OrZero(n: Num): (r: Num)
    ensures r != NaN
    ensures n != NaN && n != Finite(0.0) ==> r == n
    ensures n == NaN || n == Finite(0.0) ==> r == Finite(0.0)
  {
    if n.NaN? || n == Finite(0.0) then Finite(0.0) else n
  }

  /** `n >= k`. */
  predicate AtLeast(n: Num, k: real) {
    match n
    case Finite(v) => v >= k
    case PosInf => true
    case NegInf => false
    case NaN => false
  }

  /** `n > k`. */
  predicate Above(n: Num, k: real) {
    match n
    case Finite(v) => v > k
    case PosInf => true
    case NegInf => false
    case NaN => false
  }

  /** NaN compares false with everything: it is never at least nor above any bound. */
  lemma NaNComparesFalse(k: real)
    ensures !AtLeast(NaN, k) && !Above(NaN, k)
  {
  }
}
