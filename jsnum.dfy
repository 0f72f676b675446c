/**
 * JavaScript number semantics the calculators rely on, over exact reals:
 * reading a numeric form field, `Math.round`, and the non-finite results
 * of dividing by a user value that may be zero.
 */
module JsNum {
  import opened Base

  /**
   * A form field read as a number. An `<input type="number">` holds either
   * the empty string or a valid number, so `None` stands for "empty".
   */
  type Field = Option<real>

  /** `gV(id)`: `parseFloat(value) || 0`, so an empty field reads as 0. */
  function GV(f: Field): real
  {
    match f
    case Some(v) => v
    case None => 0.0
  }

  /** `Math.round`: the nearest integer, halves rounded towards +infinity. */
  function Round(x: real): int
  {
    (x + 0.5).Floor
  }

  lemma RoundShift(x: real, n: int)
    ensures Round(x + n as real) == Round(x) + n
  {
  }

  /** A JavaScript number: finite, +Infinity, -Infinity or NaN (no signed zero). */
  datatype Num = Fin(v: real) | PosInf | NegInf | NaN

  /** `a / b` for finite operands. */
  function Div(a: real, b: real): Num
  {
    if b != 0.0 then Fin(a / b)
    else if a > 0.0 then PosInf
    else if a < 0.0 then NegInf
    else NaN
  }

  /** `a - n` for a finite `a`. */
  function SubFrom(a: real, n: Num): Num
  {
    match n
    case Fin(v) => Fin(a - v)
    case PosInf => NegInf
    case NegInf => PosInf
    case NaN => NaN
  }

  /** `n - a` for a finite `a`. */
  function SubReal(n: Num, a: real): Num
  {
    match n
    case Fin(v) => Fin(v - a)
    case _ => n
  }
}
