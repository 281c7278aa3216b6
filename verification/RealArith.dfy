/** The few facts of real arithmetic that proofs elsewhere cite by name. */
module RealArith {

  lemma ProductNonNegative(x: real, y: real)
    requires x >= 0.0 && y >= 0.0
    ensures x * y >= 0.0
  {
  }

  lemma ProductMonotone(x: real, y: real, k: real)
    requires x <= y && k >= 0.0
    ensures x * k <= y * k
  {
  }

  lemma ProductStrict(x: real, y: real, k: real)
    requires x < y && k > 0.0
    ensures x * k < y * k
  {
  }

  lemma ProperPart(whole: real, part: real)
    requires whole > 0.0 && 0.0 < part < 1.0
    ensures 0.0 < whole * part < whole
  {
    assert whole * (1.0 - part) > 0.0;
  }

  lemma QuotientTimes(x: real, d: real)
    requires d != 0.0
    ensures x / d * d == x
  {
  }

  /** A product by name, for proofs that must not multiply out. */
  function Times(x: real, y: real): real {
    x * y
  }

  lemma TimesStrict(x: real, y: real, k: real)
    requires x < y && k > 0.0
    ensures Times(x, k) < Times(y, k)
  {
    ProductStrict(x, y, k);
  }

  lemma TimesRest(low: real, high: real, k: real)
    requires low <= high && k <= 1.0
    ensures low - Times(k, low) <= high - Times(k, high)
  {
    ProductMonotone(low, high, 1.0 - k);
    ProductRest(low, k);
    ProductRest(high, k);
  }

  /** Comparing a quotient is comparing what was divided. */
  lemma QuotientAgainst(x: real, d: real, bound: real)
    requires d > 0.0
    ensures x / d <= bound <==> x <= Times(bound, d)
    ensures x / d < bound <==> x < Times(bound, d)
  {
    var q := x / d;
    QuotientTimes(x, d);
    assert Times(q, d) == x;
    hide Times;
    if q < bound {
      TimesStrict(q, bound, d);
    } else if q > bound {
      TimesStrict(bound, q, d);
    }
  }

  /** A quotient bound, cleared of its division. */
  lemma ScaledBelow(d: real, x: real, c: real)
    requires d > 0.0 && x <= c / d
    ensures x * d <= c
  {
    QuotientTimes(c, d);
    ProductMonotone(x, c / d, d);
  }

  lemma QuotientAboveOne(x: real, d: real)
    requires d > 0.0
    ensures x / d > 1.0 <==> x > d
  {
    var q := x / d;
    QuotientTimes(x, d);
    if q > 1.0 {
      ExcessTimes(q - 1.0, d);
      assert (q - 1.0) * d == x - d;
    } else {
      ExcessTimes(1.0 - q, d);
      assert (1.0 - q) * d == d - x;
    }
  }

  lemma ExcessTimes(x: real, d: real)
    requires d > 0.0
    ensures x > 0.0 ==> x * d > 0.0
    ensures x >= 0.0 ==> x * d >= 0.0
  {
  }

  lemma ProductRest(x: real, k: real)
    ensures x * (1.0 - k) == x - k * x
  {
  }

  lemma ProductMirror(x: real, y: real, k: real)
    ensures (x - y) * k == -((y - x) * k)
  {
  }
}
