/** Values shared by the whole model: the point and size records of
    src/utils/types.ts, an Option for nullable references, and the JavaScript
    `Math` helpers the viewport code calls, stated over real numbers. */
module Basics {

  datatype Option<T> = None | Some(value: T)

  /** `Point` of src/utils/types.ts. */
  datatype Point = Point(x: real, y: real)

  /** `Size` of src/utils/types.ts. */
  datatype Size = Size(width: real, height: real)

  /** The fields of a DOMRect that the viewport code reads. */
  datatype Rect = Rect(left: real, top: real, width: real, height: real)

  const Origin: Point := Point(0.0, 0.0)

  /** `Math.min` of two numbers. */
  function Min(a: real, b: real): (r: real)
    ensures r <= a && r <= b
    ensures r == a || r == b
  {
    if a <= b then a else b
  }

  /** `Math.max` of two numbers. */
  function Max(a: real, b: real): (r: real)
    ensures r >= a && r >= b
    ensures r == a || r == b
  {
    if a >= b then a else b
  }

  /** `Math.abs`. */
  function Abs(x: real): (r: real)
    ensures r >= 0.0
    ensures r == x || r == -x
  {
    if x < 0.0 then -x else x
  }

  /** `Math.sign`, which gives 0 for 0. */
  function Sign(x: real): (r: real)
    ensures r == -1.0 || r == 0.0 || r == 1.0
    ensures r * Abs(x) == x
    ensures r == 0.0 <==> x == 0.0
  {
    if x > 0.0 then 1.0 else if x < 0.0 then -1.0 else 0.0
  }

  /** `Math.round`: the nearest integer, a half rounded up (towards +infinity). */
  function Round(x: real): (r: int)
    ensures r as real - 0.5 <= x < r as real + 0.5
  {
    (x + 0.5).Floor
  }

  predicate IsInteger(x: real)
  {
    x.Floor as real == x
  }

  /** A number with at most two decimals. */
  predicate IsHundredths(x: real)
  {
    IsInteger(x * 100.0)
  }

  /** `Number(x.toFixed(2))`, taken as rounding half up to hundredths. For a
      non-negative x this is what toFixed does on the exact value; a negative
      tie such as -0.005 goes up to -0.0 here, where toFixed rounds it away
      from zero (the binary behaviour of toFixed is not modelled). */
  function Round2(x: real): (r: real)
    ensures IsHundredths(r)
    ensures r - 0.005 <= x < r + 0.005
  {
    var n := Round(x * 100.0);
    assert (n as real / 100.0) * 100.0 == n as real;
    n as real / 100.0
  }

  lemma IntIsInteger(k: int)
    ensures IsInteger(k as real)
  {
  }

  /** Multiplying by `Math.sign(x)` keeps, negates or cancels a value. */
  lemma SignTimes(x: real, v: real)
    ensures Sign(x) * v == if x > 0.0 then v else if x < 0.0 then -v else 0.0
  {
  }

  /** Round is the identity on integers. */
  lemma RoundInteger(k: int)
    ensures Round(k as real) == k
  {
  }

  /** Rounding a number that already has two decimals does not change it. */
  lemma Round2Exact(x: real)
    requires IsHundredths(x)
    ensures Round2(x) == x
  {
    var k := (x * 100.0).Floor;
    assert k as real == x * 100.0;
    RoundInteger(k);
    assert Round(x * 100.0) == k;
  }

  /** Rounding to two decimals is idempotent. */
  lemma Round2Idempotent(x: real)
    ensures Round2(Round2(x)) == Round2(x)
  {
    Round2Exact(Round2(x));
  }

  /** Rounding to two decimals keeps a number inside an interval whose ends
      have two decimals. */
  lemma Round2StaysInside(x: real, lo: real, hi: real)
    requires IsHundredths(lo) && IsHundredths(hi)
    requires lo <= x <= hi
    ensures lo <= Round2(x) <= hi
  {
    var n := Round(x * 100.0);
    var a := (lo * 100.0).Floor;
    var b := (hi * 100.0).Floor;
    assert a as real <= x * 100.0 <= b as real;
    assert a <= n <= b;
    assert lo == a as real / 100.0 && hi == b as real / 100.0;
  }

  /** The two clamping orders the source writes, `min(max(v, lo), hi)` and
      `max(lo, min(v, hi))`, agree whenever the interval is not empty, and the
      result then lies in it. */
  lemma ClampOrders(v: real, lo: real, hi: real)
    requires lo <= hi
    ensures Min(Max(v, lo), hi) == Max(lo, Min(v, hi))
    ensures lo <= Min(Max(v, lo), hi) <= hi
  {
  }
}
