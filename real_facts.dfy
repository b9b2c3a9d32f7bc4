/**
 * Small facts about real multiplication and division.  Each one is stated
 * over plain parameters so that the solver meets the product as a single
 * term; the pose proofs instantiate them with squares and quotients.
 */
module RealFacts {

  function Sq(v: real): real {
    v * v
  }

  lemma ProductPositive(a: real, b: real, p: real)
    requires a > 0.0 && b > 0.0 && p == a * b
    ensures p > 0.0
  {
  }

  lemma SquareSign(v: real)
    ensures Sq(v) >= 0.0
    ensures v != 0.0 ==> Sq(v) > 0.0
  {
    if v > 0.0 {
      ProductPositive(v, v, Sq(v));
    } else if v < 0.0 {
      ProductPositive(-v, -v, Sq(v));
    }
  }

  lemma SumOfSquaresSign(a: real, b: real)
    ensures Sq(a) + Sq(b) >= 0.0
    ensures Sq(a) + Sq(b) == 0.0 <==> a == 0.0 && b == 0.0
  {
    SquareSign(a);
    SquareSign(b);
  }

  lemma SquareOfDifference(a: real, b: real)
    ensures Sq(a - b) == Sq(b - a)
  {
  }

  /** Two non-negative numbers with equal squares are equal. */
  lemma SquareInjective(a: real, b: real)
    requires a >= 0.0 && b >= 0.0 && Sq(a) == Sq(b)
    ensures a == b
  {
    if a > b {
      ProductPositive(a - b, a + b, Sq(a) - Sq(b));
    } else if b > a {
      ProductPositive(b - a, a + b, Sq(b) - Sq(a));
    }
  }

  lemma SquareOfQuotient(a: real, d: real)
    requires d != 0.0
    ensures Sq(a / d) * Sq(d) == Sq(a)
  {
    assert (a / d) * d == a;
  }

  lemma Distribute(a: real, b: real, c: real)
    ensures (a + b) * c == a * c + b * c
  {
  }

  lemma CancelFactor(x: real, c: real)
    requires c > 0.0 && x * c == c
    ensures x == 1.0
  {
    if x < 1.0 {
      ProductPositive(1.0 - x, c, c - x * c);
    } else if x > 1.0 {
      ProductPositive(x - 1.0, c, x * c - c);
    }
  }

  /** If a * c and b * c add up to c, and c is positive, then a + b is 1. */
  lemma SharesOfWhole(a: real, b: real, c: real, x: real, y: real)
    requires a * c == x && b * c == y && c == x + y && c > 0.0
    ensures a + b == 1.0
  {
    var whole := a + b;
    Distribute(a, b, c);
    assert whole * c == c;
    CancelFactor(whole, c);
  }

  /** A quotient of a bounded non-negative sum by a positive count is bounded. */
  lemma QuotientBounds(s: real, c: real, b: real)
    requires c > 0.0 && 0.0 <= s <= b * c
    ensures 0.0 <= s / c <= b
  {
    var q := s / c;
    assert q * c == s;
    if q < 0.0 {
      ProductPositive(-q, c, -s);
    }
    if q > b {
      ProductPositive(q - b, c, s - b * c);
    }
  }

  lemma SquareOfProduct(a: real, b: real)
    ensures Sq(a * b) == Sq(a) * Sq(b)
  {
  }

  lemma ProductNonNegative(a: real, b: real, p: real)
    requires a >= 0.0 && b >= 0.0 && p == a * b
    ensures p >= 0.0
  {
    if a > 0.0 && b > 0.0 {
      ProductPositive(a, b, p);
    }
  }

  lemma ScaledSumOfSquares(k: real, a: real, b: real)
    ensures Sq(k * a) + Sq(k * b) == Sq(k) * (Sq(a) + Sq(b))
  {
    SquareOfProduct(k, a);
    SquareOfProduct(k, b);
    Distribute(Sq(a), Sq(b), Sq(k));
  }
}
