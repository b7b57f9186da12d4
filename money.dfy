/** Arithmetic helpers shared by both tax engines: JavaScript's `Math.round`,
    `Math.min` and `Math.max` over exact reals. */
module Money {

  /** `Math.round`: the nearest integer, halves rounded toward +infinity. */
  function Round(x: real): (r: int)
    ensures x - 0.5 < r as real <= x + 0.5
  {
    (x + 0.5).Floor
  }

  /** Rounding never reverses the order of two amounts. */
  lemma RoundMonotone(x: real, y: real)
    requires x <= y
    ensures Round(x) <= Round(y)
  {
  }

  /** A whole amount is its own rounding. */
  lemma RoundWhole(n: int)
    ensures Round(n as real) == n
  {
  }

  /** `Math.max(a, b)` for ordinary numbers. */
  function Max(a: real, b: real): (r: real)
    ensures r >= a && r >= b
    ensures r == a || r == b
  {
    if a >= b then a else b
  }

  /** `Math.min(a, b)` for ordinary numbers. */
  function Min(a: real, b: real): (r: real)
    ensures r <= a && r <= b
    ensures r == a || r == b
  {
    if a <= b then a else b
  }

  /** A ratio inherits bounds stated as multiples of its denominator. */
  lemma RatioBounds(part: real, whole: real, low: real, high: real)
    requires 0.0 < whole
    requires low * whole <= part <= high * whole
    ensures low <= part / whole <= high
  {
    var q := part / whole;
    assert q * whole == part;
    assert (q - low) * whole >= 0.0;
    assert (high - q) * whole >= 0.0;
  }
}
