/**
 * Rounding of currency amounts to two decimals, the `round(x, 2)` applied to
 * every monetary figure of the engine. Amounts are exact reals.
 */
module Money {

  /** Rounds to the nearest cent, halves upwards. */
  function Round2(x: real): (r: real)
    ensures -1.0 / 200.0 < r - x <= 1.0 / 200.0
  {
    var k := (x * 100.0 + 0.5).Floor;
    k as real / 100.0
  }

  /** An amount that already is a whole number of cents. */
  predicate IsCents(x: real) {
    (x * 100.0).Floor as real == x * 100.0
  }

  lemma RoundIsCents(x: real)
    ensures IsCents(Round2(x))
  {
    var k := (x * 100.0 + 0.5).Floor;
    assert Round2(x) * 100.0 == k as real;
  }

  /** Rounding leaves a whole number of cents unchanged. */
  lemma RoundOfCents(x: real)
    requires IsCents(x)
    ensures Round2(x) == x
  {
    var k := (x * 100.0).Floor;
    assert x * 100.0 + 0.5 == k as real + 0.5;
    assert (x * 100.0 + 0.5).Floor == k;
  }

  /** Rounding twice is rounding once. */
  lemma RoundIdempotent(x: real)
    ensures Round2(Round2(x)) == Round2(x)
  {
    RoundIsCents(x);
    RoundOfCents(Round2(x));
  }

  /** Rounding never reverses the order of two amounts. */
  lemma RoundMonotone(x: real, y: real)
    requires x <= y
    ensures Round2(x) <= Round2(y)
  {
    var a, b := x * 100.0 + 0.5, y * 100.0 + 0.5;
    assert a.Floor as real <= a <= b < b.Floor as real + 1.0;
    assert a.Floor <= b.Floor;
  }

  /** A non-negative amount rounds to a non-negative amount. */
  lemma RoundNonNegative(x: real)
    requires 0.0 <= x
    ensures 0.0 <= Round2(x)
  {
    RoundMonotone(0.0, x);
    RoundOfCents(0.0);
  }

  /** Two amounts more than a cent apart stay apart after rounding. */
  lemma RoundSeparates(x: real, y: real)
    requires x - y > 1.0 / 100.0 || y - x > 1.0 / 100.0
    ensures Round2(x) != Round2(y)
  {
  }
}
