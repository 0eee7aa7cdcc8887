/** The few facts about products and quotients of reals that the indicators' bounds rest on. */
module Reals {

  lemma ProductNonnegative(x: real, y: real)
    requires x >= 0.0 && y >= 0.0
    ensures x * y >= 0.0
  {
  }

  lemma ProductPositive(x: real, y: real)
    requires x > 0.0 && y > 0.0
    ensures x * y > 0.0
  {
  }

  lemma ProductMonotone(c: real, x: real, y: real)
    requires c > 0.0 && x < y
    ensures c * x < c * y
  {
    ProductPositive(c, y - x);
    assert c * (y - x) == c * y - c * x;
  }

  /** A positive factor cancels from an inequality. */
  lemma CancelFactor(c: real, x: real, y: real)
    requires c > 0.0 && c * x <= c * y
    ensures x <= y
  {
    if y < x { ProductMonotone(c, y, x); }
  }

  lemma TimesQuotient(a: real, c: real)
    requires c != 0.0
    ensures c * (a / c) == a
  {
  }

  /** A quotient by a positive number lies between two bounds if the dividend does, scaled. */
  lemma QuotientWithin(lo: real, a: real, hi: real, c: real)
    requires c > 0.0 && c * lo <= a <= c * hi
    ensures lo <= a / c <= hi
  {
    TimesQuotient(a, c);
    CancelFactor(c, lo, a / c);
    CancelFactor(c, a / c, hi);
  }

  /** The sum of two quotients is bounded if the sum of the dividends is, scaled. */
  lemma QuotientsWithin(a: real, b: real, hi: real, c: real)
    requires c > 0.0 && a + b <= c * hi
    ensures a / c + b / c <= hi
  {
    TimesQuotient(a, c);
    TimesQuotient(b, c);
    var u, v := a / c, b / c;
    assert c * (u + v) == c * u + c * v;
    CancelFactor(c, u + v, hi);
  }

  lemma ProductOverFactor(a: real, c: real)
    requires c != 0.0
    ensures a * c / c == a
  {
    TimesQuotient(a * c, c);
    var x := a * c / c;
    assert c * (x - a) == c * x - c * a;
    assert c * x == a * c;
    if x != a { NonzeroProduct(c, x - a); }
  }

  lemma NonzeroProduct(x: real, y: real)
    requires x != 0.0 && y != 0.0
    ensures x * y != 0.0
  {
    if x > 0.0 {
      if y > 0.0 { ProductPositive(x, y); } else { ProductPositive(x, -y); }
    } else {
      if y > 0.0 { ProductPositive(-x, y); } else { ProductPositive(-x, -y); }
    }
  }
}
