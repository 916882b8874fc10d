/** src/features/artboard/useArtboard.ts: `getPos` maps the screen position
    of a pointer or touch event onto the fixed 400 x 400 logical drawing
    surface, relative to the canvas' bounding rectangle, whatever the current
    zoom and pan. */
module UseArtboard {
  import opened Basics
  import opened Range
  import opened TouchGeometry

  /** `artboardSize`: the logical size of the drawing surface. */
  const artboardSize: Size := Size(400.0, 400.0)

  /** A mouse event, or a touch event with its touch list. `clientX` and
      `clientY` of a touch event are whatever the event object holds there. */
  datatype PointerEvent =
    | MouseEvent(clientX: real, clientY: real)
    | TouchInput(touches: seq<Touch>, clientX: real, clientY: real)

  /** The screen position `getPos` reads: the first touch of a touch event
      that has one, the event's own client position otherwise. */
  function ScreenPos(event: PointerEvent): (p: Point)
    ensures event.MouseEvent? ==> p == Point(event.clientX, event.clientY)
    ensures event.TouchInput? && |event.touches| > 0 ==>
      p == Point(event.touches[0].clientX, event.touches[0].clientY)
    ensures p == Point(event.clientX, event.clientY)
         || (event.TouchInput? && |event.touches| > 0 && p == Point(event.touches[0].clientX, event.touches[0].clientY))
  {
    if event.TouchInput? && |event.touches| > 0 then
      Point(event.touches[0].clientX, event.touches[0].clientY)
    else
      Point(event.clientX, event.clientY)
  }

  /** `getPos`: each axis is rescaled from the rectangle's extent onto the
      surface's, so the rectangle's left/top edge lands on 0, its right/bottom
      edge on 400, and the screen point is recovered from the result. */
  function GetPos(event: PointerEvent, screenRect: Rect): (p: Point)
    requires screenRect.width != 0.0 && screenRect.height != 0.0
    ensures ScreenPos(event).x == screenRect.left ==> p.x == 0.0
    ensures ScreenPos(event).x == screenRect.left + screenRect.width ==> p.x == artboardSize.width
    ensures ScreenPos(event).y == screenRect.top ==> p.y == 0.0
    ensures ScreenPos(event).y == screenRect.top + screenRect.height ==> p.y == artboardSize.height
    ensures p.x == (ScreenPos(event).x - screenRect.left) * artboardSize.width / screenRect.width
    ensures p.y == (ScreenPos(event).y - screenRect.top) * artboardSize.height / screenRect.height
  {
    var screenPos := ScreenPos(event);
    Point(ScaleValue(screenPos.x - screenRect.left, (0.0, screenRect.width), (0.0, artboardSize.width)),
          ScaleValue(screenPos.y - screenRect.top, (0.0, screenRect.height), (0.0, artboardSize.height)))
  }

  /** Mapping the logical point back onto the rectangle and adding its
      offset gives the screen point again. */
  lemma GetPosRoundTrip(event: PointerEvent, screenRect: Rect)
    requires screenRect.width != 0.0 && screenRect.height != 0.0
    ensures ScaleValue(GetPos(event, screenRect).x, (0.0, artboardSize.width), (0.0, screenRect.width)) + screenRect.left
         == ScreenPos(event).x
    ensures ScaleValue(GetPos(event, screenRect).y, (0.0, artboardSize.height), (0.0, screenRect.height)) + screenRect.top
         == ScreenPos(event).y
  {
    var s := ScreenPos(event);
    ScaleValueRoundTrip(s.x - screenRect.left, (0.0, screenRect.width), (0.0, artboardSize.width));
    ScaleValueRoundTrip(s.y - screenRect.top, (0.0, screenRect.height), (0.0, artboardSize.height));
  }

  /** The x coordinate depends only on the horizontal screen position and the
      rectangle's left edge and width; likewise for y. */
  lemma GetPosAxesIndependent(e1: PointerEvent, r1: Rect, e2: PointerEvent, r2: Rect)
    requires r1.width != 0.0 && r1.height != 0.0 && r2.width != 0.0 && r2.height != 0.0
    ensures ScreenPos(e1).x == ScreenPos(e2).x && r1.left == r2.left && r1.width == r2.width
            ==> GetPos(e1, r1).x == GetPos(e2, r2).x
    ensures ScreenPos(e1).y == ScreenPos(e2).y && r1.top == r2.top && r1.height == r2.height
            ==> GetPos(e1, r1).y == GetPos(e2, r2).y
  {
  }

  /** A touch event uses its first touch, ignoring the event's client position. */
  lemma GetPosUsesFirstTouch(touches: seq<Touch>, clientX: real, clientY: real, screenRect: Rect)
    requires screenRect.width != 0.0 && screenRect.height != 0.0
    requires |touches| > 0
    ensures GetPos(TouchInput(touches, clientX, clientY), screenRect)
         == GetPos(MouseEvent(touches[0].clientX, touches[0].clientY), screenRect)
  {
  }
}
