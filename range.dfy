/** src/utils/range.ts: the affine map `scaleValue` from one range of numbers
    onto another. A range is the pair `[start, end]`; `.0` and `.1` are its
    elements 0 and 1. */
module Range {
  import opened Basics

  /** `scaleValue`: maps `originalRange` onto `targetRange` linearly. The
      formula divides by the width of `originalRange`, so that width must be
      non-zero. The function performs no range check. */
  function ScaleValue(value: real, originalRange: (real, real), targetRange: (real, real)): (r: real)
    requires originalRange.0 != originalRange.1
    ensures value == originalRange.0 ==> r == targetRange.0
    ensures value == originalRange.1 ==> r == targetRange.1
  {
    (value - originalRange.0) * (targetRange.1 - targetRange.0) / (originalRange.1 - originalRange.0) + targetRange.0
  }

  /** Whether `value` lies between the two ends of `range`, in either order. */
  predicate InRange(value: real, range: (real, real))
  {
    Min(range.0, range.1) <= value <= Max(range.0, range.1)
  }

  /** The validating variant the unit tests expect: out-of-range values are an
      error (`None`), in-range values map as `ScaleValue` does. */
  function ScaleValueChecked(value: real, originalRange: (real, real), targetRange: (real, real)): (r: Option<real>)
    requires originalRange.0 != originalRange.1
    ensures r.Some? <==> InRange(value, originalRange)
    ensures r.Some? ==> InRange(r.value, targetRange)
    ensures r.Some? ==> r.value == ScaleValue(value, originalRange, targetRange)
  {
    if InRange(value, originalRange) then
      ScaleValueStaysInRange(value, originalRange, targetRange);
      Some(ScaleValue(value, originalRange, targetRange))
    else
      None
  }

  /** An in-range value is mapped into the target range. */
  lemma ScaleValueStaysInRange(value: real, originalRange: (real, real), targetRange: (real, real))
    requires originalRange.0 != originalRange.1
    requires InRange(value, originalRange)
    ensures InRange(ScaleValue(value, originalRange, targetRange), targetRange)
  {
    var a := value - originalRange.0;
    var w := originalRange.1 - originalRange.0;
    var d := targetRange.1 - targetRange.0;
    FractionOfWidth(a, w);
    ScaledFraction(a / w, d);
    assert a * d / w == (a / w) * d;
    assert ScaleValue(value, originalRange, targetRange) == targetRange.0 + (a / w) * d;
  }

  /** An offset that stays within a non-zero width is a fraction in [0, 1] of it. */
  lemma FractionOfWidth(a: real, w: real)
    requires w != 0.0
    requires Min(0.0, w) <= a <= Max(0.0, w)
    ensures 0.0 <= a / w <= 1.0
  {
    if w > 0.0 {
      DivBetween(a, w);
    } else {
      DivBetween(-a, -w);
      assert a / w == (-a) / (-w);
    }
  }

  lemma ScaledFraction(f: real, d: real)
    requires 0.0 <= f <= 1.0
    ensures Min(0.0, d) <= f * d <= Max(0.0, d)
  {
    if d >= 0.0 {
      assert f * d <= 1.0 * d;
    } else {
      assert f * d >= 1.0 * d;
    }
  }

  lemma DivBetween(a: real, b: real)
    requires b > 0.0 && 0.0 <= a <= b
    ensures 0.0 <= a / b <= 1.0
  {
  }

  /** Mapping A onto B and then B back onto A returns the original value. */
  lemma ScaleValueRoundTrip(value: real, originalRange: (real, real), targetRange: (real, real))
    requires originalRange.0 != originalRange.1
    requires targetRange.0 != targetRange.1
    ensures ScaleValue(ScaleValue(value, originalRange, targetRange), targetRange, originalRange) == value
  {
    var y := ScaleValue(value, originalRange, targetRange);
    AffineCancel(value - originalRange.0, targetRange.1 - targetRange.0, originalRange.1 - originalRange.0,
                 targetRange.0, originalRange.0, y, ScaleValue(y, targetRange, originalRange));
  }

  /** Scaling an offset `a` by d / w, shifting by `t`, then undoing the shift
      and scaling by w / d gives the offset back. */
  lemma AffineCancel(a: real, d: real, w: real, t: real, o: real, y: real, z: real)
    requires d != 0.0 && w != 0.0
    requires y == a * d / w + t
    requires z == (y - t) * w / d + o
    ensures z == a + o
  {
    var q := y - t;
    assert q * w == a * d;
    assert (a * d) / d == a;
  }

  /** With both ranges increasing, the map preserves order. */
  lemma ScaleValueMonotone(v1: real, v2: real, originalRange: (real, real), targetRange: (real, real))
    requires originalRange.0 < originalRange.1
    requires targetRange.0 < targetRange.1
    requires v1 <= v2
    ensures ScaleValue(v1, originalRange, targetRange) <= ScaleValue(v2, originalRange, targetRange)
  {
    AffineMonotone(v1 - originalRange.0, v2 - originalRange.0,
                   targetRange.1 - targetRange.0, originalRange.1 - originalRange.0, targetRange.0,
                   ScaleValue(v1, originalRange, targetRange), ScaleValue(v2, originalRange, targetRange));
  }

  /** Scaling by a positive d / w and shifting by `t` preserves order. */
  lemma AffineMonotone(x1: real, x2: real, d: real, w: real, t: real, r1: real, r2: real)
    requires x1 <= x2 && d > 0.0 && w > 0.0
    requires r1 == x1 * d / w + t && r2 == x2 * d / w + t
    ensures r1 <= r2
  {
    MulMonotone(x1, x2, d);
    DivMonotone(x1 * d, x2 * d, w);
  }

  lemma MulMonotone(x1: real, x2: real, d: real)
    requires x1 <= x2 && d > 0.0
    ensures x1 * d <= x2 * d
  {
    var e := x2 - x1;
    assert e * d >= 0.0;
    assert x2 * d == x1 * d + e * d;
  }

  lemma DivMonotone(a: real, b: real, c: real)
    requires c > 0.0 && a <= b
    ensures a / c <= b / c
  {
  }

  /** The value halfway between the ends of the original range lands halfway
      between the ends of the target range. */
  lemma ScaleValueMidpoint(originalRange: (real, real), targetRange: (real, real))
    requires originalRange.0 != originalRange.1
    ensures ScaleValue((originalRange.0 + originalRange.1) / 2.0, originalRange, targetRange)
         == (targetRange.0 + targetRange.1) / 2.0
  {
    var w := originalRange.1 - originalRange.0;
    assert (originalRange.0 + originalRange.1) / 2.0 - originalRange.0 == w / 2.0;
    assert (w / 2.0) * (targetRange.1 - targetRange.0) / w == (targetRange.1 - targetRange.0) / 2.0;
  }

  /** The exact cases of the unit tests, including the two that the tests only
      compare to two decimals: over the reals they hold exactly. */
  lemma ScaleValueTestCases()
    ensures ScaleValue(5.0, (0.0, 10.0), (100.0, 200.0)) == 150.0
    ensures ScaleValue(7.0, (5.0, 10.0), (0.0, 100.0)) == 40.0
    ensures ScaleValue(7.0, (5.0, 10.0), (100.0, 200.0)) == 140.0
    ensures ScaleValue(7.0, (5.0, 10.0), (200.0, 300.0)) == 240.0
    ensures ScaleValue(-5.0, (-10.0, 10.0), (0.0, 100.0)) == 25.0
    ensures ScaleValue(3.14, (0.0, 10.0), (100.0, 200.0)) == 131.4
    ensures ScaleValue(7.89, (5.0, 10.0), (0.0, 100.0)) == 57.8
  {
  }

  /** The unit test expects an error for 1 in [5, 10]; the function as written
      returns -80 instead, while the validating variant reports the error. */
  lemma OutOfRangeValueIsNotRejected()
    ensures ScaleValue(1.0, (5.0, 10.0), (0.0, 100.0)) == -80.0
    ensures ScaleValueChecked(1.0, (5.0, 10.0), (0.0, 100.0)) == None
  {
  }
}
