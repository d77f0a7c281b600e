/** Real-number helpers for the JavaScript rounding functions and for comparing quotients. */
module Numbers {

  /** `Math.round`: the nearest integer, halves rounded up. */
  function RoundHalfUp(x: real): (r: int)
    ensures r as real - 0.5 <= x < r as real + 0.5
  {
    (x + 0.5).Floor
  }

  /** `Math.ceil`: the least integer not below `x`. */
  function Ceil(x: real): (r: int)
    ensures x <= r as real < x + 1.0
  {
    -((-x).Floor)
  }

  /** Comparing a quotient with a bound is comparing the dividend with the scaled bound. */
  lemma {:induction false} QuotientAtLeast(a: real, b: real, c: real)
    requires b > 0.0
    ensures a / b >= c <==> a >= c * b
  {
    assert (a / b) * b == a;
    if a / b >= c {
      assert (a / b) * b >= c * b;
    } else {
      assert (a / b) * b < c * b;
    }
  }
}
