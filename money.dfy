/**
 * Money amounts in EUR as exact reals, and the rounding to whole cents that
 * the calculators apply with `round(x, 2)`.
 *
 * `Round2` rounds half up. Binary floating point and round-half-even only make a
 * difference on exact half-cent ties, where a strict bound below may hold only with
 * equality under the other rule; the concrete amounts used as examples are chosen
 * away from ties.
 */
module Money {

  /** `x` rounded to two decimals (whole cents), ties upwards. */
  function Round2(x: real): real {
    (x * 100.0 + 0.5).Floor as real / 100.0
  }

  /** `x` is a whole number of cents. */
  predicate IsCents(x: real) {
    (x * 100.0).Floor as real == x * 100.0
  }

  /** Rounding lands on whole cents and moves a value by at most half a cent. */
  lemma Round2Bounds(x: real)
    ensures IsCents(Round2(x))
    ensures x - 0.005 < Round2(x) <= x + 0.005
  {
    var n := (x * 100.0 + 0.5).Floor;
    assert Round2(x) * 100.0 == n as real;
  }

  /** A whole number of cents is left alone by rounding. */
  lemma Round2OfCents(x: real)
    requires IsCents(x)
    ensures Round2(x) == x
  {
    var n := (x * 100.0).Floor;
    assert x * 100.0 + 0.5 == n as real + 0.5;
    assert (x * 100.0 + 0.5).Floor == n;
  }

  /** Rounding twice is rounding once. */
  lemma Round2Idempotent(x: real)
    ensures Round2(Round2(x)) == Round2(x)
  {
    Round2Bounds(x);
    Round2OfCents(Round2(x));
  }

  /** Rounding never reverses the order of two amounts. */
  lemma Round2Monotone(x: real, y: real)
    requires x <= y
    ensures Round2(x) <= Round2(y)
  {
    assert (x * 100.0 + 0.5).Floor <= (y * 100.0 + 0.5).Floor;
  }

  /** Adding whole cents before or after rounding gives the same amount. */
  lemma Round2AddCents(x: real, c: real)
    requires IsCents(c)
    ensures Round2(x + c) == Round2(x) + c
  {
    var k := (c * 100.0).Floor;
    assert (x + c) * 100.0 + 0.5 == (x * 100.0 + 0.5) + k as real;
    assert ((x + c) * 100.0 + 0.5).Floor == (x * 100.0 + 0.5).Floor + k;
  }

  /** Sums and differences of whole cents are whole cents. */
  lemma CentsAdd(a: real, b: real)
    requires IsCents(a) && IsCents(b)
    ensures IsCents(a + b) && IsCents(a - b)
  {
    var m, n := (a * 100.0).Floor, (b * 100.0).Floor;
    assert a * 100.0 == m as real;
    assert b * 100.0 == n as real;
    assert (a + b) * 100.0 == a * 100.0 + b * 100.0;
    assert (a - b) * 100.0 == a * 100.0 - b * 100.0;
    assert ((m + n) as real).Floor == m + n;
    assert ((m - n) as real).Floor == m - n;
  }

  /** Rounding zero or any non-negative amount gives a non-negative amount. */
  lemma Round2NonNegative(x: real)
    requires x >= 0.0
    ensures Round2(x) >= 0.0
  {
    assert (x * 100.0 + 0.5).Floor >= 0;
  }
}
