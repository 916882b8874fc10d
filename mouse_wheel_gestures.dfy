/** src/features/mouse/useWheelGestures.ts: ctrl+wheel reports a fixed scale
    delta of +10 or -10; any other wheel event is passed through as a scroll. */
module MouseWheelGestures {
  import opened Basics
  import opened Gestures

  /** `SCALE_FACTOR_DELTA`. */
  const SCALE_FACTOR_DELTA: real := 10.0

  /** `handleWheel` once callbacks are attached: at most one callback; scroll
      deltas pass through unchanged; with ctrl, the delta is +10 against the
      sign of deltaY, and nothing when deltaY is zero. No scale is consulted. */
  function MouseWheelCallbacks(event: WheelEvent): (r: seq<Gesture>)
    ensures |r| <= 1
    ensures !event.ctrlKey ==> r == [Scroll(event.deltaX, event.deltaY)]
    ensures event.ctrlKey ==> (r == [] <==> event.deltaY == 0.0)
    ensures event.ctrlKey && r != [] ==> r == [Zoom(-Sign(event.deltaY) * SCALE_FACTOR_DELTA)]
  {
    if event.ctrlKey then
      (if event.deltaY < 0.0 then [Zoom(SCALE_FACTOR_DELTA)] else [])
      + (if event.deltaY > 0.0 then [Zoom(-SCALE_FACTOR_DELTA)] else [])
    else
      [Scroll(event.deltaX, event.deltaY)]
  }

  /** The hook's state: `gestures.current`. */
  class MouseWheelGestureSource {
    var attached: bool

    constructor ()
      ensures !attached
    {
      attached := false;
    }

    /** `attach`: installs the callbacks. */
    method Attach()
      modifies this
      ensures attached
    {
      attached := true;
    }

    /** `handleWheel` (also `next`): without callbacks it logs and reports nothing. */
    method HandleWheel(event: WheelEvent) returns (emitted: seq<Gesture>)
      ensures !attached ==> emitted == []
      ensures attached ==> emitted == MouseWheelCallbacks(event)
    {
      if !attached {
        return [];
      }
      emitted := [];
      if event.ctrlKey {
        if event.deltaY < 0.0 {
          emitted := emitted + [Zoom(SCALE_FACTOR_DELTA)];
        }
        if event.deltaY > 0.0 {
          emitted := emitted + [Zoom(-SCALE_FACTOR_DELTA)];
        }
      } else {
        emitted := [Scroll(event.deltaX, event.deltaY)];
      }
    }
  }
}
