/**
 The part of JavaScript number semantics the percentage computations reach:
 a finite quotient, or one of the three values IEEE division yields for a zero
 divisor (`NaN`, `Infinity`, `-Infinity`), with `* 100`, `>` and `Math.min`.
 */
module JsNumber {

  datatype Num = Fin(value: real) | NaN | PosInf | NegInf

  /** `a / b`: `x / 0` is `Infinity` for positive `x`, `-Infinity` for negative `x`, `NaN` for `0 / 0`. */
  function Div(a: real, b: real): (r: Num)
    ensures b != 0.0 ==> r.Fin? && r.value * b == a
    ensures b == 0.0 ==> (r == PosInf <==> a > 0.0) && (r == NegInf <==> a < 0.0) && (r == NaN <==> a == 0.0)
  {
    if b != 0.0 then Fin(a / b)
    else if a > 0.0 then PosInf
    else if a < 0.0 then NegInf
    else NaN
  }

  /** `n * 100`: a positive factor keeps `NaN` and both infinities as they are. */
  function Times100(n: Num): Num
  {
    match n
    case Fin(v) => Fin(v * 100.0)
    case _ => n
  }

  /** `n > k` for a finite `k`: false whenever `n` is `NaN`. */
  predicate GreaterThan(n: Num, k: real)
  {
    match n
    case Fin(v) => v > k
    case PosInf => true
    case _ => false
  }

  /** `Math.min(n, k)` for a finite `k`: `NaN` if `n` is `NaN`. */
  function MinWith(n: Num, k: real): (r: Num)
    ensures r != NaN ==> r.Fin? || r == NegInf
    ensures r.Fin? ==> r.value <= k
    ensures r == NaN <==> n == NaN
    ensures !GreaterThan(r, k)
    ensures n.Fin? ==> r.Fin? && r.value <= n.value && (r.value == n.value || r.value == k)
    ensures n == PosInf ==> r == Fin(k)
    ensures n == NegInf ==> r == NegInf
  {
    match n
    case Fin(v) => Fin(if v < k then v else k)
    case PosInf => Fin(k)
    case _ => n
  }
}
