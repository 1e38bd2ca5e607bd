/** JavaScript's remainder operator `%`, on integers and on numbers. */
module JsNumber {

  /** JavaScript's `a % b` on integers: the remainder of division truncated toward
      zero, so it takes the sign of `a`. (An integer result of 0 also stands for
      JavaScript's -0, which indexes an array exactly as 0 does.) */
  function JsRem(a: int, b: int): (r: int)
    requires b > 0
    ensures a >= 0 ==> 0 <= r < b
    ensures a < 0 ==> -b < r <= 0
    ensures a >= 0 ==> r == a % b
  {
    if a >= 0 then a % b else -((-a) % b)
  }

  /** Truncating remainder is odd in its dividend: `(-a) % b == -(a % b)`. */
  lemma JsRemOdd(a: int, b: int)
    requires b > 0
    ensures JsRem(-a, b) == -JsRem(a, b)
  {
  }

  /** JavaScript's `a % b` on numbers: `a - b * q` with `a / b` truncated toward
      zero, so the result has the sign of `a`, is smaller than `b` in magnitude,
      and differs from `a` by a whole multiple of `b`. */
  function JsRemReal(a: real, b: real): (r: real)
    requires b > 0.0
    ensures a >= 0.0 ==> 0.0 <= r < b
    ensures a < 0.0 ==> -b < r <= 0.0
    ensures ((a - r) / b).Floor as real == (a - r) / b
  {
    var q := a / b;
    var truncated := if q >= 0.0 then q.Floor else -((-q).Floor);
    var t := truncated as real;
    QuotientSign(a, b);
    RemainderBound(a, b, t);
    WholeMultiple(a, b, t);
    a - b * t
  }

  /** Proof helper: the quotient has the sign of the dividend. */
  lemma QuotientSign(a: real, b: real)
    requires b > 0.0
    ensures a / b >= 0.0 <==> a >= 0.0
  {
    var q := a / b;
    assert b * q == a;
    if q >= 0.0 { assert b * q >= b * 0.0; } else { assert b * q < b * 0.0; }
  }

  /** Proof helper: when `t` is within 1 of `a / b`, `a - b * t` is within `b` of 0,
      on the same side as `a / b - t`. */
  lemma RemainderBound(a: real, b: real, t: real)
    requires b > 0.0 && -1.0 < a / b - t < 1.0
    ensures -b < a - b * t < b
    ensures a / b - t >= 0.0 ==> a - b * t >= 0.0
    ensures a / b - t <= 0.0 ==> a - b * t <= 0.0
  {
    assert b * (a / b) == a;
    assert a - b * t == b * (a / b - t);
    ScaledFraction(b, a / b - t, a - b * t);
  }

  /** Proof helper: `y`, which is `b * x` for a fraction `x`, is smaller than `b` in
      magnitude and has the sign of `x`. */
  lemma ScaledFraction(b: real, x: real, y: real)
    requires b > 0.0 && -1.0 < x < 1.0 && y == b * x
    ensures -b < y < b
    ensures x >= 0.0 ==> y >= 0.0
    ensures x <= 0.0 ==> y <= 0.0
  {
    assert b * x < b * 1.0;
    assert b * -1.0 < b * x;
  }

  /** Proof helper: `a` minus `a - b * t` is `t` times `b`. */
  lemma WholeMultiple(a: real, b: real, t: real)
    requires b > 0.0
    ensures (a - (a - b * t)) / b == t
  {
    assert a - (a - b * t) == b * t;
  }
}
