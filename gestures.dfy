/** The callbacks the gesture sources invoke, as values.

    The touch hooks call `pan(deltaX, deltaY)` and `pinch(scaleFactor)`; the
    wheel hooks call `zoom(x)` and `scroll(deltaX, deltaY)`, where `x` is an
    absolute scale candidate in src/features/zoom/useWheelGestures.ts and a
    scale delta in src/features/mouse/useWheelGestures.ts. A handler returns
    the sequence of callbacks it invoked, in order; the empty sequence is a
    handler that invoked none (after logging, or because nothing applied). */
module Gestures {

  datatype Gesture =
    | Pan(deltaX: real, deltaY: real)
    | Pinch(scaleFactor: real)
    | Zoom(amount: real)
    | Scroll(deltaX: real, deltaY: real)

  /** The fields of a DOM WheelEvent the wheel hooks read. */
  datatype WheelEvent = WheelEvent(ctrlKey: bool, deltaX: real, deltaY: real)

  /** The divisor that turns a pinch distance change, or a wheel
      scale-factor delta, into a scale change: 100 at or above 100% zoom,
      200 below it, so the response is half as strong when zoomed out. */
  function ZoomIntensity(currentScaleFactor: real): (k: real)
    ensures k == 100.0 || k == 200.0
    ensures k == 200.0 <==> currentScaleFactor < 1.0
  {
    if currentScaleFactor >= 1.0 then 100.0 else 200.0
  }
}
