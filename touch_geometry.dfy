/** src/features/touch/utils.ts: distance and midpoint of the first two
    fingers of a touch event.

    `Math.hypot` has no counterpart here, so each touch event carries the
    distance the host computed for its first two touches, `hypotDistance`;
    `Measured` ties it to the touches (non-negative, and its square is the sum
    of the squared coordinate differences), which fixes it uniquely
    (`HypotUnique`). */
module TouchGeometry {
  import opened Basics

  /** A touch point of a DOM touch list. */
  datatype Touch = Touch(clientX: real, clientY: real)

  datatype TouchEvent = TouchEvent(touches: seq<Touch>, hypotDistance: real)

  function SquaredDistance(a: Touch, b: Touch): real
  {
    (a.clientX - b.clientX) * (a.clientX - b.clientX) + (a.clientY - b.clientY) * (a.clientY - b.clientY)
  }

  /** `touches[0]` and `touches[1]` exist. */
  predicate TwoFingers(e: TouchEvent)
  {
    |e.touches| >= 2
  }

  /** `hypotDistance` is the Euclidean distance of the first two touches. */
  predicate Measured(e: TouchEvent)
  {
    && TwoFingers(e)
    && e.hypotDistance >= 0.0
    && e.hypotDistance * e.hypotDistance == SquaredDistance(e.touches[0], e.touches[1])
  }

  /** A non-negative square root is unique. */
  lemma HypotUnique(d1: real, d2: real)
    requires d1 >= 0.0 && d2 >= 0.0
    requires d1 * d1 == d2 * d2
    ensures d1 == d2
  {
    if d1 < d2 {
      SquareStrictlyMonotone(d1, d2);
    } else if d2 < d1 {
      SquareStrictlyMonotone(d2, d1);
    }
  }

  lemma SquareStrictlyMonotone(a: real, b: real)
    requires 0.0 <= a < b
    ensures a * a < b * b
  {
    var g := b - a;
    assert b * b == (a + g) * (a + g) == a * a + 2.0 * a * g + g * g;
    assert a * g >= 0.0;
    assert g * g > 0.0;
  }

  lemma SumOfSquaresZero(dx: real, dy: real)
    ensures dx * dx + dy * dy == 0.0 <==> dx == 0.0 && dy == 0.0
  {
    SquareZero(dx);
    SquareZero(dy);
  }

  lemma SquareZero(x: real)
    ensures x * x >= 0.0
    ensures x * x == 0.0 <==> x == 0.0
  {
    if x > 0.0 {
      SquareStrictlyMonotone(0.0, x);
    } else if x < 0.0 {
      SquareStrictlyMonotone(0.0, -x);
      assert (-x) * (-x) == x * x;
    }
  }

  /** `calcFingersDistance`: zero exactly when both fingers are on the same point. */
  function CalcFingersDistance(e: TouchEvent): (d: real)
    requires Measured(e)
    ensures d >= 0.0
    ensures d == 0.0 <==> e.touches[0] == e.touches[1]
  {
    var a, b := e.touches[0], e.touches[1];
    SumOfSquaresZero(a.clientX - b.clientX, a.clientY - b.clientY);
    SquareZero(e.hypotDistance);
    e.hypotDistance
  }

  /** `calcFingersMidpoint`: the two fingers lie symmetrically about the result. */
  function CalcFingersMidpoint(e: TouchEvent): (m: Point)
    requires TwoFingers(e)
    ensures e.touches[0].clientX - m.x == m.x - e.touches[1].clientX
    ensures e.touches[0].clientY - m.y == m.y - e.touches[1].clientY
  {
    Point((e.touches[0].clientX + e.touches[1].clientX) / 2.0,
          (e.touches[0].clientY + e.touches[1].clientY) / 2.0)
  }

  /** Two events whose first two fingers are the same two fingers in the
      other order have the same distance and the same midpoint. */
  lemma SwapFingersSymmetric(e: TouchEvent, f: TouchEvent)
    requires Measured(e) && Measured(f)
    requires f.touches[0] == e.touches[1] && f.touches[1] == e.touches[0]
    ensures CalcFingersDistance(f) == CalcFingersDistance(e)
    ensures CalcFingersMidpoint(f) == CalcFingersMidpoint(e)
  {
    var a, b := e.touches[0], e.touches[1];
    assert SquaredDistance(b, a) == SquaredDistance(a, b);
    HypotUnique(f.hypotDistance, e.hypotDistance);
  }

  /** Two events whose first two fingers differ by the same shift
      `(dx, dy)`: the distance stays, the midpoint moves by the shift. */
  lemma TranslationKeepsDistance(e: TouchEvent, f: TouchEvent, dx: real, dy: real)
    requires Measured(e) && Measured(f)
    requires f.touches[0] == Touch(e.touches[0].clientX + dx, e.touches[0].clientY + dy)
    requires f.touches[1] == Touch(e.touches[1].clientX + dx, e.touches[1].clientY + dy)
    ensures CalcFingersDistance(f) == CalcFingersDistance(e)
    ensures CalcFingersMidpoint(f) == Point(CalcFingersMidpoint(e).x + dx, CalcFingersMidpoint(e).y + dy)
  {
    assert SquaredDistance(f.touches[0], f.touches[1]) == SquaredDistance(e.touches[0], e.touches[1]);
    HypotUnique(f.hypotDistance, e.hypotDistance);
  }
}
