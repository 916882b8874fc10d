/** src/features/zoom/useTouchGestures.ts: the second copy of the multi-touch
    gesture source. It declares its own `calcFingersDistance`,
    `calcFingersMidpoint` and epsilon of 3 px, textually the same as those of
    src/features/touch, so the model reuses TouchGeometry and Detectors; it
    branches with if/else where the other copy uses two detector calls. */
module ZoomTouchGestures {
  import opened Basics
  import opened TouchGeometry
  import opened Detectors
  import opened Gestures
  import TouchGestures

  /** What one move reports: a pan when the distance changed by less than the
      epsilon, else a pinch when the distance grew or shrank. */
  function ZoomTouchMoveCallbacks(prevTouch: Option<TouchEvent>, event: TouchEvent, currentScaleFactor: real): (r: seq<Gesture>)
    requires Measured(event)
    requires prevTouch.Some? ==> Measured(prevTouch.value)
    ensures |r| <= 1
    ensures prevTouch.None? ==> r == []
    ensures forall i | 0 <= i < |r| :: r[i].Pan? || r[i].Pinch?
    ensures prevTouch.Some? ==> forall i | 0 <= i < |r| :: r[i].Pan? <==> IsPan(event, prevTouch.value)
  {
    match prevTouch
    case None => []
    case Some(prev) =>
      var prevDistance := CalcFingersDistance(prev);
      var distance := CalcFingersDistance(event);
      if Abs(distance - prevDistance) < PINCH_OR_PAN_EPSILON then
        var midpoint := CalcFingersMidpoint(event);
        var prevMidpoint := CalcFingersMidpoint(prev);
        [Pan(prevMidpoint.x - midpoint.x, prevMidpoint.y - midpoint.y)]
      else
        var zoomFactor := Abs(distance - prevDistance) / ZoomIntensity(currentScaleFactor);
        (if distance > prevDistance then [Pinch(currentScaleFactor + zoomFactor)] else [])
        + (if distance < prevDistance then [Pinch(currentScaleFactor - zoomFactor)] else [])
  }

  /** Both copies of the hook report the same callbacks for the same previous
      sample, event and scale (and both then record the event), so they agree
      on every event sequence. */
  lemma SameCallbacksAsTouchVariant(prevTouch: Option<TouchEvent>, event: TouchEvent, currentScaleFactor: real)
    requires Measured(event)
    requires prevTouch.Some? ==> Measured(prevTouch.value)
    ensures ZoomTouchMoveCallbacks(prevTouch, event, currentScaleFactor)
         == TouchGestures.TouchMoveCallbacks(prevTouch, event, currentScaleFactor)
  {
    if prevTouch.Some? {
      var prev := prevTouch.value;
      if !IsPan(event, prev) {
        assert IsPinch(event, prev);
      }
    }
  }

  /** All moves of one attached gesture, as `TouchGestures.TouchRun`. */
  function ZoomTouchRun(prevTouch: Option<TouchEvent>, events: seq<TouchEvent>, currentScaleFactor: real): (r: seq<Gesture>)
    requires forall i :: 0 <= i < |events| ==> Measured(events[i])
    requires prevTouch.Some? ==> Measured(prevTouch.value)
    ensures |r| <= |events|
    ensures forall i | 0 <= i < |r| :: r[i].Pan? || r[i].Pinch?
    decreases |events|
  {
    if events == [] then []
    else ZoomTouchMoveCallbacks(prevTouch, events[0], currentScaleFactor)
         + ZoomTouchRun(Some(events[0]), events[1..], currentScaleFactor)
  }

  /** For the same event sequence the two copies report the same callbacks. */
  lemma {:induction false} SameRunAsTouchVariant(prevTouch: Option<TouchEvent>, events: seq<TouchEvent>, currentScaleFactor: real)
    requires forall i :: 0 <= i < |events| ==> Measured(events[i])
    requires prevTouch.Some? ==> Measured(prevTouch.value)
    ensures ZoomTouchRun(prevTouch, events, currentScaleFactor)
         == TouchGestures.TouchRun(prevTouch, events, currentScaleFactor)
    decreases |events|
  {
    if events != [] {
      SameCallbacksAsTouchVariant(prevTouch, events[0], currentScaleFactor);
      SameRunAsTouchVariant(Some(events[0]), events[1..], currentScaleFactor);
    }
  }

  /** Below 100% zoom a pinch moves the scale by a 200th of the distance
      change, half as much as the 100th used at or above 100%. */
  lemma PinchSensitivity(prev: TouchEvent, event: TouchEvent, currentScaleFactor: real)
    requires Measured(event) && Measured(prev)
    requires !IsPan(event, prev)
    ensures |ZoomTouchMoveCallbacks(Some(prev), event, currentScaleFactor)| == 1
    ensures var g := ZoomTouchMoveCallbacks(Some(prev), event, currentScaleFactor)[0];
      && g.Pinch?
      && Abs(g.scaleFactor - currentScaleFactor)
         == DistanceChange(event, prev) / (if currentScaleFactor < 1.0 then 200.0 else 100.0)
  {
    var d, pd := CalcFingersDistance(event), CalcFingersDistance(prev);
    assert d != pd;
    var k := ZoomIntensity(currentScaleFactor);
    assert Abs(d - pd) / k >= 0.0;
  }

  /** The hook's state: `gestures.current` and `prevTouch.current`. */
  class ZoomTouchGestureSource {
    var attached: bool
    var prevTouch: Option<TouchEvent>

    ghost predicate Valid()
      reads this
    {
      prevTouch.Some? ==> Measured(prevTouch.value)
    }

    constructor ()
      ensures Valid() && !attached && prevTouch == None
    {
      attached := false;
      prevTouch := None;
    }

    /** `attach`: installs the callbacks. */
    method Attach()
      modifies this
      ensures attached && prevTouch == old(prevTouch)
      ensures Valid() == old(Valid())
    {
      attached := true;
    }

    /** `onTouchStart`: forgets the previous sample. */
    method OnTouchStart()
      modifies this
      ensures Valid() && prevTouch == None && attached == old(attached)
    {
      prevTouch := None;
    }

    /** `onTouchMove`: without callbacks, logs and changes nothing; otherwise
      reports the move and records the event. */
    method OnTouchMove(event: TouchEvent, currentScaleFactor: real) returns (emitted: seq<Gesture>)
      requires Valid() && Measured(event)
      modifies this
      ensures Valid() && attached == old(attached)
      ensures !old(attached) ==> emitted == [] && prevTouch == old(prevTouch)
      ensures old(attached) ==> prevTouch == Some(event)
      ensures old(attached) ==> emitted == ZoomTouchMoveCallbacks(old(prevTouch), event, currentScaleFactor)
    {
      emitted := [];
      if !attached {
        return;
      }
      if prevTouch.Some? {
        var prev := prevTouch.value;
        var prevDistance := CalcFingersDistance(prev);
        var distance := CalcFingersDistance(event);
        if Abs(distance - prevDistance) < PINCH_OR_PAN_EPSILON {
          var midpoint := CalcFingersMidpoint(event);
          var prevMidpoint := CalcFingersMidpoint(prev);
          emitted := [Pan(prevMidpoint.x - midpoint.x, prevMidpoint.y - midpoint.y)];
        } else {
          var zoomIntensity := ZoomIntensity(currentScaleFactor);
          var zoomFactor := Abs(distance - prevDistance) / zoomIntensity;
          if distance > prevDistance {
            emitted := emitted + [Pinch(currentScaleFactor + zoomFactor)];
          }
          if distance < prevDistance {
            emitted := emitted + [Pinch(currentScaleFactor - zoomFactor)];
          }
        }
      }
      prevTouch := Some(event);
    }

    /** The `end` callback the hook registers does nothing. */
    method OnTouchEnd() returns (emitted: seq<Gesture>)
      ensures emitted == []
    {
      emitted := [];
    }
  }
}
