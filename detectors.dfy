/** src/features/touch/detectors.ts: a two-finger move is a pan when the
    inter-finger distance changed by less than 3 px, and a pinch otherwise. */
module Detectors {
  import opened Basics
  import opened TouchGeometry

  /** `PINCH_OR_PAN_EPSILON`, in pixels. */
  const PINCH_OR_PAN_EPSILON: real := 3.0

  /** The change of inter-finger distance between two samples, in absolute value. */
  function DistanceChange(touch: TouchEvent, prevTouch: TouchEvent): (r: real)
    requires Measured(touch) && Measured(prevTouch)
  {
    Abs(CalcFingersDistance(touch) - CalcFingersDistance(prevTouch))
  }

  /** `isPan`: the distance moved by less than 3 px either way. */
  function IsPan(touch: TouchEvent, prevTouch: TouchEvent): (r: bool)
    requires Measured(touch) && Measured(prevTouch)
    ensures r <==> -PINCH_OR_PAN_EPSILON < CalcFingersDistance(touch) - CalcFingersDistance(prevTouch) < PINCH_OR_PAN_EPSILON
  {
    DistanceChange(touch, prevTouch) < PINCH_OR_PAN_EPSILON
  }

  /** `isPinch`: exactly the samples that are not pans. */
  function IsPinch(touch: TouchEvent, prevTouch: TouchEvent): (r: bool)
    requires Measured(touch) && Measured(prevTouch)
    ensures r <==> !IsPan(touch, prevTouch)
  {
    DistanceChange(touch, prevTouch) >= PINCH_OR_PAN_EPSILON
  }

  /** A distance change of exactly 3 px is a pinch. */
  lemma BoundaryIsPinch(touch: TouchEvent, prevTouch: TouchEvent)
    requires Measured(touch) && Measured(prevTouch)
    requires DistanceChange(touch, prevTouch) == PINCH_OR_PAN_EPSILON
    ensures IsPinch(touch, prevTouch) && !IsPan(touch, prevTouch)
  {
  }

  /** Both detectors give the same answer when the samples are exchanged. */
  lemma DetectorsSymmetric(touch: TouchEvent, prevTouch: TouchEvent)
    requires Measured(touch) && Measured(prevTouch)
    ensures IsPan(touch, prevTouch) == IsPan(prevTouch, touch)
    ensures IsPinch(touch, prevTouch) == IsPinch(prevTouch, touch)
  {
  }

  /** Two samples with equal inter-finger distance are a pan. */
  lemma EqualDistanceIsPan(touch: TouchEvent, prevTouch: TouchEvent)
    requires Measured(touch) && Measured(prevTouch)
    requires CalcFingersDistance(touch) == CalcFingersDistance(prevTouch)
    ensures IsPan(touch, prevTouch)
  {
  }

  /** Moving both fingers by the same vector is always a pan. */
  lemma TranslationIsPan(prevTouch: TouchEvent, touch: TouchEvent, dx: real, dy: real)
    requires Measured(touch) && Measured(prevTouch)
    requires touch.touches[0] == Touch(prevTouch.touches[0].clientX + dx, prevTouch.touches[0].clientY + dy)
    requires touch.touches[1] == Touch(prevTouch.touches[1].clientX + dx, prevTouch.touches[1].clientY + dy)
    ensures IsPan(touch, prevTouch)
  {
    TranslationKeepsDistance(prevTouch, touch, dx, dy);
  }
}
