/**
 Order and sign facts about real arithmetic and the floor, stated once so
 that the workout proofs can cite them over plain reals.
 */
module RealFacts {

  /** Dividing by a positive number keeps order. */
  lemma DivMonotone(x: real, y: real, d: real)
    requires x <= y && d > 0.0
    ensures x / d <= y / d
  {
  }

  /** The floor keeps order. */
  lemma FloorMonotone(x: real, y: real)
    requires x <= y
    ensures x.Floor <= y.Floor
  {
  }

  /** Squaring keeps order among non-negative numbers. */
  lemma SquareMonotone(x: real, y: real)
    requires 0.0 <= x <= y
    ensures x * x <= y * y
  {
  }

  /** A quotient by a positive divisor is below one exactly when the
      dividend is below the divisor, and is non-negative with the dividend. */
  lemma QuotientBelowOne(x: real, h: real)
    requires h > 0.0
    ensures x / h < 1.0 <==> x < h
    ensures x >= 0.0 ==> x / h >= 0.0
  {
    if x < h {
      assert x / h < 1.0;
    } else {
      assert x / h >= 1.0;
    }
  }

  /** Python's `x // y` on floats: the floor of the quotient, as a real. */
  function FloorDiv(x: real, y: real): (r: real)
    requires y != 0.0
    ensures r <= x / y < r + 1.0
    ensures r == r.Floor as real
  {
    (x / y).Floor as real
  }

  /** Floored division by a positive divisor keeps order, and a
      non-negative dividend gives a non-negative result. */
  lemma FloorDivMonotone(x: real, y: real, h: real)
    requires x <= y && h > 0.0
    ensures FloorDiv(x, h) <= FloorDiv(y, h)
    ensures x >= 0.0 ==> FloorDiv(x, h) >= 0.0
  {
    DivMonotone(x, y, h);
    FloorMonotone(x / h, y / h);
    QuotientBelowOne(x, h);
    if x >= 0.0 {
      FloorMonotone(0.0, x / h);
    }
  }

  /** Floored division of a non-negative dividend by a positive divisor is
      zero exactly when the dividend is below the divisor. */
  lemma FloorDivBelowOne(x: real, h: real)
    requires h > 0.0 && x >= 0.0
    ensures FloorDiv(x, h) == 0.0 <==> x < h
  {
    QuotientBelowOne(x, h);
    if x >= h {
      FloorMonotone(1.0, x / h);
    }
  }
}
