/** src/features/touch/useTouchGestures.ts: the multi-touch gesture source.
    The hook keeps two refs, the attached callbacks and the previous touch
    sample; each two-finger move is compared with the previous sample and
    reported as a pan of the midpoint or as a pinch to a new scale. */
module TouchGestures {
  import opened Basics
  import opened TouchGeometry
  import opened Detectors
  import opened Gestures

  /** What one move reports, given the previous sample: nothing without a
      previous sample; otherwise a pan when `isPan` holds, then a pinch when
      `isPinch` holds and the distance grew or shrank. */
  function TouchMoveCallbacks(prevTouch: Option<TouchEvent>, event: TouchEvent, currentScaleFactor: real): (r: seq<Gesture>)
    requires Measured(event)
    requires prevTouch.Some? ==> Measured(prevTouch.value)
    ensures |r| <= 1
    ensures prevTouch.None? ==> r == []
    ensures forall i | 0 <= i < |r| :: r[i].Pan? || r[i].Pinch?
    ensures prevTouch.Some? ==> forall i | 0 <= i < |r| :: r[i].Pan? <==> IsPan(event, prevTouch.value)
  {
    match prevTouch
    case None => []
    case Some(prev) =>
      var prevDistance := CalcFingersDistance(prev);
      var distance := CalcFingersDistance(event);
      var pans :=
        if IsPan(event, prev) then
          var midpoint := CalcFingersMidpoint(event);
          var prevMidpoint := CalcFingersMidpoint(prev);
          [Pan(prevMidpoint.x - midpoint.x, prevMidpoint.y - midpoint.y)]
        else [];
      var pinches :=
        if IsPinch(event, prev) then
          var zoomFactor := Abs(distance - prevDistance) / ZoomIntensity(currentScaleFactor);
          (if distance > prevDistance then [Pinch(currentScaleFactor + zoomFactor)] else [])
          + (if distance < prevDistance then [Pinch(currentScaleFactor - zoomFactor)] else [])
        else [];
      pans + pinches
  }

  /** With a previous sample, every move reports exactly one callback: a pan
      of the midpoints (previous minus current) when the distance changed by
      less than 3 px, else a pinch whose scale moves by the signed distance
      change over the intensity. */
  lemma TouchMoveEmitsOne(prev: TouchEvent, event: TouchEvent, currentScaleFactor: real)
    requires Measured(event) && Measured(prev)
    ensures |TouchMoveCallbacks(Some(prev), event, currentScaleFactor)| == 1
    ensures TouchMoveCallbacks(Some(prev), event, currentScaleFactor)[0].Pan? <==> IsPan(event, prev)
    ensures IsPan(event, prev) ==>
      TouchMoveCallbacks(Some(prev), event, currentScaleFactor)[0]
        == Pan(CalcFingersMidpoint(prev).x - CalcFingersMidpoint(event).x,
               CalcFingersMidpoint(prev).y - CalcFingersMidpoint(event).y)
    ensures IsPinch(event, prev) ==>
      TouchMoveCallbacks(Some(prev), event, currentScaleFactor)[0]
        == Pinch(currentScaleFactor
                 + (CalcFingersDistance(event) - CalcFingersDistance(prev)) / ZoomIntensity(currentScaleFactor))
  {
    var d, pd := CalcFingersDistance(event), CalcFingersDistance(prev);
    var k := ZoomIntensity(currentScaleFactor);
    if IsPinch(event, prev) {
      assert d != pd;
      if d > pd {
        assert Abs(d - pd) / k == (d - pd) / k;
      } else {
        assert currentScaleFactor - Abs(d - pd) / k == currentScaleFactor + (d - pd) / k;
      }
    }
  }

  /** The calibration scenario: fingers 100 px apart, then 140 px apart, at
      scale 1 report a pinch to 1.4, a magnification of 40 / 100. */
  lemma PinchCalibration()
    ensures TouchMoveCallbacks(Some(TouchEvent([Touch(0.0, 0.0), Touch(100.0, 0.0)], 100.0)),
                               TouchEvent([Touch(0.0, 0.0), Touch(140.0, 0.0)], 140.0), 1.0)
         == [Pinch(1.4)]
  {
    var prev := TouchEvent([Touch(0.0, 0.0), Touch(100.0, 0.0)], 100.0);
    var event := TouchEvent([Touch(0.0, 0.0), Touch(140.0, 0.0)], 140.0);
    assert Measured(prev) && Measured(event);
    TouchMoveEmitsOne(prev, event, 1.0);
  }

  /** All moves of one attached gesture, from the previous sample
      `prevTouch`: the callbacks of each move in turn, each move becoming the
      previous sample of the next. */
  function TouchRun(prevTouch: Option<TouchEvent>, events: seq<TouchEvent>, currentScaleFactor: real): (r: seq<Gesture>)
    requires forall i :: 0 <= i < |events| ==> Measured(events[i])
    requires prevTouch.Some? ==> Measured(prevTouch.value)
    ensures |r| <= |events|
    ensures forall i | 0 <= i < |r| :: r[i].Pan? || r[i].Pinch?
    decreases |events|
  {
    if events == [] then []
    else TouchMoveCallbacks(prevTouch, events[0], currentScaleFactor)
         + TouchRun(Some(events[0]), events[1..], currentScaleFactor)
  }

  /** After a touch start, a run of moves reports one callback per move but
      the first. */
  lemma {:induction false} TouchRunLength(prevTouch: Option<TouchEvent>, events: seq<TouchEvent>, currentScaleFactor: real)
    requires forall i :: 0 <= i < |events| ==> Measured(events[i])
    requires prevTouch.Some? ==> Measured(prevTouch.value)
    ensures |TouchRun(prevTouch, events, currentScaleFactor)|
         == if prevTouch.None? && events != [] then |events| - 1 else |events|
    decreases |events|
  {
    if events != [] {
      if prevTouch.Some? {
        TouchMoveEmitsOne(prevTouch.value, events[0], currentScaleFactor);
      }
      TouchRunLength(Some(events[0]), events[1..], currentScaleFactor);
    }
  }

  /** The hook's state: `gestures.current` (whether callbacks are attached)
      and `prevTouch.current`. */
  class TouchGestureSource {
    var attached: bool
    var prevTouch: Option<TouchEvent>

    ghost predicate Valid()
      reads this
    {
      prevTouch.Some? ==> Measured(prevTouch.value)
    }

    constructor ()
      ensures Valid() && !attached && prevTouch == None
    {
      attached := false;
      prevTouch := None;
    }

    /** `attach`: installs the callbacks. */
    method Attach()
      modifies this
      ensures attached && prevTouch == old(prevTouch)
      ensures Valid() == old(Valid())
    {
      attached := true;
    }

    /** `onTouchStart`: forgets the previous sample. */
    method OnTouchStart()
      modifies this
      ensures Valid() && prevTouch == None && attached == old(attached)
    {
      prevTouch := None;
    }

    /** `onTouchMove`: without callbacks, logs and changes nothing; otherwise
      reports the move against the previous sample and records the event. */
    method OnTouchMove(event: TouchEvent, currentScaleFactor: real) returns (emitted: seq<Gesture>)
      requires Valid() && Measured(event)
      modifies this
      ensures Valid() && attached == old(attached)
      ensures !old(attached) ==> emitted == [] && prevTouch == old(prevTouch)
      ensures old(attached) ==> prevTouch == Some(event)
      ensures old(attached) ==> emitted == TouchMoveCallbacks(old(prevTouch), event, currentScaleFactor)
      ensures old(attached) && old(prevTouch).Some? ==> |emitted| == 1
    {
      emitted := [];
      if !attached {
        return;
      }
      if prevTouch.Some? {
        var prev := prevTouch.value;
        var prevDistance := CalcFingersDistance(prev);
        var distance := CalcFingersDistance(event);
        if IsPan(event, prev) {
          var midpoint := CalcFingersMidpoint(event);
          var prevMidpoint := CalcFingersMidpoint(prev);
          emitted := emitted + [Pan(prevMidpoint.x - midpoint.x, prevMidpoint.y - midpoint.y)];
        }
        if IsPinch(event, prev) {
          var zoomIntensity := ZoomIntensity(currentScaleFactor);
          var zoomFactor := Abs(distance - prevDistance) / zoomIntensity;
          if distance > prevDistance {
            emitted := emitted + [Pinch(currentScaleFactor + zoomFactor)];
          }
          if distance < prevDistance {
            emitted := emitted + [Pinch(currentScaleFactor - zoomFactor)];
          }
        }
        TouchMoveEmitsOne(prev, event, currentScaleFactor);
      }
      prevTouch := Some(event);
    }

    /** The `end` callback the hook registers does nothing. */
    method OnTouchEnd() returns (emitted: seq<Gesture>)
      ensures emitted == []
    {
      emitted := [];
    }
  }
}
