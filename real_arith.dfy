/** Small facts about products of reals, kept apart so that each proof stays linear elsewhere. */
module RealArith {
  /**
   * A product of two amounts. Specifications write products through this
   * name so that the solver treats them as terms and multiplies out only
   * where a proof needs it.
   */
  function Times(a: real, b: real): real
  {
    a * b
  }

  lemma TimesAssoc(a: real, b: real, c: real)
    ensures Times(Times(a, b), c) == Times(a, Times(b, c))
  {
    MulAssoc(a, b, c);
  }

  lemma TimesPos(a: real, b: real)
    requires a > 0.0 && b > 0.0
    ensures Times(a, b) > 0.0
  {
    MulPos(a, b);
  }

  lemma MulAssoc(a: real, b: real, c: real)
    ensures (a * b) * c == a * (b * c)
  {}

  lemma MulPos(a: real, b: real)
    requires a > 0.0 && b > 0.0
    ensures a * b > 0.0
  {}

  lemma MulNonNeg(a: real, b: real)
    requires a >= 0.0 && b >= 0.0
    ensures a * b >= 0.0
  {}

  lemma MulNonPos(a: real, b: real)
    requires a <= 0.0 && b >= 0.0
    ensures a * b <= 0.0
  {}

  /** Scaling a non-negative amount by a factor of at most one does not increase it. */
  lemma MulAtMostOne(a: real, b: real)
    requires a >= 0.0 && b <= 1.0
    ensures a * b <= a
  {}

  lemma MulSplit(a: real, b: real)
    ensures a * b + a * (1.0 - b) == a
  {}

  /** A part no larger than a positive whole is a share in `[0, 1]` of it. */
  lemma ShareOfWhole(part: real, whole: real)
    requires whole > 0.0 && 0.0 <= part <= whole
    ensures 0.0 <= part / whole <= 1.0
  {
    var q := part / whole;
    assert q * whole == part;
    MulMonotone(q, whole);
  }

  /** Scaling by a positive factor keeps the order against 0 and 1. */
  lemma MulMonotone(q: real, w: real)
    requires w > 0.0
    ensures q > 1.0 ==> q * w > w
    ensures q < 0.0 ==> q * w < 0.0
  {
    if q > 1.0 {
      MulPos(q - 1.0, w);
    }
    if q < 0.0 {
      MulPos(-q, w);
    }
  }

  /** A non-zero factor cancels from both sides of an equation of products. */
  lemma TimesCancel(a: real, b: real, d: real)
    requires d != 0.0 && Times(a, d) == Times(b, d)
    ensures a == b
  {
    MulCancel(a, b, d);
  }

  /** A non-zero factor cancels from both sides of an equation. */
  lemma MulCancel(a: real, b: real, d: real)
    requires d != 0.0 && a * d == b * d
    ensures a == b
  {
    assert (a - b) * d == 0.0;
  }
}
