/** Facts about real multiplication and division that the solver does not find on its own. */
module Arith {

  lemma AddTimes(a: real, b: real, t: real)
    ensures (a + b) * t == a * t + b * t
  {
  }

  lemma SubTimes(a: real, b: real, t: real)
    ensures (a - b) * t == a * t - b * t
  {
  }

  lemma MulNonZero(a: real, b: real)
    requires a != 0.0 && b != 0.0
    ensures a * b != 0.0
  {
  }

  /** Division is the inverse of multiplication by a non-zero divisor. */
  lemma DivUnique(x: real, d: real, q: real)
    requires d != 0.0 && q * d == x
    ensures x / d == q
  {
  }

  /** Dividing a positive amount by a larger positive value gives less. */
  lemma RecipLess(l: real, v1: real, v2: real)
    requires l > 0.0 && 0.0 < v1 < v2
    ensures l / v2 < l / v1
  {
    var a, b := l / v2, l / v1;
    assert a * v2 == l && b * v1 == l;
    assert b > 0.0;
    assert b * v1 < b * v2;
    assert (b - a) * v2 > 0.0;
  }

  lemma OneMinus(v: real, l: real)
    requires v != 0.0
    ensures (v - l) / v == 1.0 - l / v
  {
    DivUnique(v - l, v, 1.0 - l / v);
  }

  /** Division distributes over a difference. */
  lemma DivSub(x: real, y: real, d: real)
    requires d != 0.0
    ensures (x - y) / d == x / d - y / d
  {
    assert (x / d) * d == x && (y / d) * d == y;
    assert (x / d - y / d) * d == x - y;
    DivUnique(x - y, d, x / d - y / d);
  }

  /** A positive factor keeps the sign of the other. */
  lemma PosFactor(a: real, x: real)
    requires a > 0.0
    ensures a * x > 0.0 <==> x > 0.0
  {
    if x > 0.0 {
    } else {
      assert a * x <= 0.0;
    }
  }
}
