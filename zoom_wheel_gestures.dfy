/** src/features/zoom/useWheelGestures.ts: ctrl+wheel proposes an absolute
    scale one step above or below the current one; any other wheel event is
    passed through as a scroll. */
module ZoomWheelGestures {
  import opened Basics
  import opened Gestures

  /** The zoom step: 0.1 at or above 100% zoom, 0.05 below. */
  function WheelZoomStep(currentScaleFactor: real): (step: real)
    ensures step > 0.0
    ensures step == (if currentScaleFactor < 1.0 then 0.05 else 0.1)
  {
    if currentScaleFactor >= 1.0 then 0.1 else 0.05
  }

  /** `handleWheel` once callbacks are attached: at most one callback; scroll
      deltas pass through unchanged whatever the scale; with ctrl, wheeling up
      (deltaY < 0) proposes the scale one step higher, wheeling down one step
      lower, and a zero deltaY proposes nothing. */
  function WheelCallbacks(event: WheelEvent, currentScaleFactor: real): (r: seq<Gesture>)
    ensures |r| <= 1
    ensures !event.ctrlKey ==> r == [Scroll(event.deltaX, event.deltaY)]
    ensures event.ctrlKey ==> (r == [] <==> event.deltaY == 0.0)
    ensures event.ctrlKey && r != [] ==>
      && r[0].Zoom?
      && Abs(r[0].amount - currentScaleFactor) == WheelZoomStep(currentScaleFactor)
      && (r[0].amount > currentScaleFactor <==> event.deltaY < 0.0)
  {
    if event.ctrlKey then
      var zoomFactor := WheelZoomStep(currentScaleFactor);
      (if event.deltaY < 0.0 then [Zoom(currentScaleFactor + zoomFactor)] else [])
      + (if event.deltaY > 0.0 then [Zoom(currentScaleFactor - zoomFactor)] else [])
    else
      [Scroll(event.deltaX, event.deltaY)]
  }

  /** The hook's state: `gestures.current`. */
  class ZoomWheelGestureSource {
    var attached: bool

    constructor ()
      ensures !attached
    {
      attached := false;
    }

    /** `attach`: installs the callbacks. */
    method Attach()
      modifies this
      ensures attached
    {
      attached := true;
    }

    /** `handleWheel` (also `next`): without callbacks it logs and reports nothing. */
    method HandleWheel(event: WheelEvent, currentScaleFactor: real) returns (emitted: seq<Gesture>)
      ensures !attached ==> emitted == []
      ensures attached ==> emitted == WheelCallbacks(event, currentScaleFactor)
    {
      if !attached {
        return [];
      }
      emitted := [];
      if event.ctrlKey {
        var zoomFactor := WheelZoomStep(currentScaleFactor);
        if event.deltaY < 0.0 {
          emitted := emitted + [Zoom(currentScaleFactor + zoomFactor)];
        }
        if event.deltaY > 0.0 {
          emitted := emitted + [Zoom(currentScaleFactor - zoomFactor)];
        }
      } else {
        emitted := [Scroll(event.deltaX, event.deltaY)];
      }
    }
  }
}
