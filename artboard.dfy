/** src/features/artboard/Artboard.tsx: the viewport transform controller.
    The component receives the scale as a prop and reports zoom requests
    through `onZoom`; it owns the translation and the rotation of the
    artboard, and derives the scrollbar geometry from the rendered rectangles.

    The scroll handler and the scrollbar formulas are the same, line for line,
    in src/features/layer/artboard/Artboard.tsx; they are modelled here once
    and reused by LayerArtboard. */
module Artboard {
  import opened Basics
  import opened Gestures
  import opened Range
  import ZoomControls
  import ZoomWheelGestures
  import MouseWheelGestures

  /** `zoom`: turns a scale delta into the scale reported through `onZoom`,
      dividing by the zoom intensity, clamping into [0.25, 5] and rounding to
      two decimals. */
  function ArtboardZoom(scaleFactor: real, scaleFactorDelta: real): (r: real)
    ensures ZoomControls.CORE_MIN <= r <= ZoomControls.CORE_MAX
    ensures IsHundredths(r)
    ensures r == ZoomControls.HandleZoom(scaleFactor + scaleFactorDelta / ZoomIntensity(scaleFactor))
  {
    var zoomIntensity := ZoomIntensity(scaleFactor);
    var newScaleFactor := scaleFactor + scaleFactorDelta / zoomIntensity;
    var clampedScaleFactor := Min(Max(ZoomControls.CORE_MIN, newScaleFactor), ZoomControls.CORE_MAX);
    ClampOrders(newScaleFactor, ZoomControls.CORE_MIN, ZoomControls.CORE_MAX);
    Round2(clampedScaleFactor)
  }

  /** A ctrl+wheel notch reported as a zoom of 10 against the sign of
      deltaY, as src/features/mouse/useWheelGestures.ts reports it, and fed
      to `zoom`, moves the candidate scale by 0.1 at or above 100% and by
      0.05 below, before clamping; it therefore reports the same scale as
      the absolute candidate of src/features/zoom/useWheelGestures.ts passed
      through `handleZoom`. The wheel hook this component attaches to comes
      from the `react-gestures` package; the lemma takes it to report a
      notch as that hook does. */
  lemma WheelNotchZoom(event: WheelEvent, scaleFactor: real)
    requires event.ctrlKey && event.deltaY != 0.0
    ensures |MouseWheelGestures.MouseWheelCallbacks(event)| == 1
    ensures |ZoomWheelGestures.WheelCallbacks(event, scaleFactor)| == 1
    ensures var delta := MouseWheelGestures.MouseWheelCallbacks(event)[0].amount;
      var candidate := ZoomWheelGestures.WheelCallbacks(event, scaleFactor)[0].amount;
      && scaleFactor + delta / ZoomIntensity(scaleFactor) == candidate
      && Abs(candidate - scaleFactor) == (if scaleFactor >= 1.0 then 0.1 else 0.05)
      && ArtboardZoom(scaleFactor, delta) == ZoomControls.HandleZoom(candidate)
  {
  }

  /** Half the range the translation may take on one axis:
      `extent / (2.5 * scale)`. */
  function TranslateLimit(extent: real, scaleFactor: real): (m: real)
    requires scaleFactor > 0.0
    ensures extent >= 0.0 ==> m >= 0.0
    ensures m * (2.5 * scaleFactor) == extent
  {
    extent / (2.5 * scaleFactor)
  }

  /** One axis of the scroll update: the offset minus the delta over the
      scale, clamped into [-limit, limit]. */
  function ScrollAxis(offset: real, delta: real, scaleFactor: real, limit: real): (r: real)
    requires scaleFactor > 0.0
    ensures limit >= 0.0 ==> -limit <= r <= limit
    ensures -limit <= offset - delta / scaleFactor <= limit ==> r == offset - delta / scaleFactor
    ensures offset - delta / scaleFactor >= limit ==> r == limit
    ensures limit >= 0.0 && offset - delta / scaleFactor <= -limit ==> r == -limit
  {
    Min(Max(offset - delta / scaleFactor, -limit), limit)
  }

  /** `scroll`'s update of the translation. A no-op when the artboard is not
      mounted or the scale is at most 1; otherwise each axis moves against
      the wheel or pan delta, divided by the scale, and is clamped to the
      limit of its own axis. */
  function ScrolledTranslate(translate: Point, scaleFactor: real, artboard: Option<Rect>, deltaX: real, deltaY: real): (r: Point)
    ensures artboard.None? || scaleFactor <= 1.0 ==> r == translate
    ensures artboard.Some? && scaleFactor > 1.0 ==>
      r == Point(ScrollAxis(translate.x, deltaX, scaleFactor, TranslateLimit(artboard.value.width, scaleFactor)),
                 ScrollAxis(translate.y, deltaY, scaleFactor, TranslateLimit(artboard.value.height, scaleFactor)))
  {
    if artboard.None? || scaleFactor <= 1.0 then translate
    else
      var width, height := artboard.value.width, artboard.value.height;
      var xMax := width / (2.5 * scaleFactor);
      var yMax := height / (2.5 * scaleFactor);
      Point(Min(Max(translate.x - deltaX / scaleFactor, -xMax), xMax),
            Min(Max(translate.y - deltaY / scaleFactor, -yMax), yMax))
  }

  /** After a scroll with the artboard mounted and the scale above 1, the
      translation lies within the limits, whatever it was before. */
  lemma ScrollStaysInBounds(translate: Point, scaleFactor: real, artboard: Rect, deltaX: real, deltaY: real)
    requires scaleFactor > 1.0
    requires artboard.width >= 0.0 && artboard.height >= 0.0
    ensures var r := ScrolledTranslate(translate, scaleFactor, Some(artboard), deltaX, deltaY);
      && Abs(r.x) <= TranslateLimit(artboard.width, scaleFactor)
      && Abs(r.y) <= TranslateLimit(artboard.height, scaleFactor)
  {
  }

  /** The horizontal result ignores everything vertical and vice versa. */
  lemma ScrollAxesIndependent(t1: Point, t2: Point, scaleFactor: real, a1: Rect, a2: Rect,
                              dx1: real, dy1: real, dx2: real, dy2: real)
    requires scaleFactor > 1.0
    ensures t1.x == t2.x && a1.width == a2.width && dx1 == dx2 ==>
      ScrolledTranslate(t1, scaleFactor, Some(a1), dx1, dy1).x == ScrolledTranslate(t2, scaleFactor, Some(a2), dx2, dy2).x
    ensures t1.y == t2.y && a1.height == a2.height && dy1 == dy2 ==>
      ScrolledTranslate(t1, scaleFactor, Some(a1), dx1, dy1).y == ScrolledTranslate(t2, scaleFactor, Some(a2), dx2, dy2).y
  {
  }

  /** The vertical scrollbar position for an offset `dy` of the pane centre
      from the artboard centre, with `dyMax` half the artboard height:
      an integer percentage in [0, 100], 50 when centred, at 0 or 100 once
      the offset reaches `dyMax`, and on the side of 50 that `dy` points to;
      its distance from 50 is the capped magnitude as a percentage of
      `2 * dyMax`, rounded to the nearest integer. */
  function VerticalPosition(dy: real, dyMax: real): (r: real)
    requires dyMax > 0.0
    ensures 0.0 <= r <= 100.0 && IsInteger(r)
    ensures dy == 0.0 ==> r == 50.0
    ensures Abs(dy) >= dyMax ==> r == 50.0 + 50.0 * Sign(dy)
    ensures r > 50.0 ==> dy > 0.0
    ensures r < 50.0 ==> dy < 0.0
    ensures Abs(r - 50.0) - 0.5 <= Min(dyMax, Abs(dy)) / dyMax * 50.0 < Abs(r - 50.0) + 0.5
  {
    var clampedPercents := VerticalPercent(dy, dyMax);
    var n := Round(clampedPercents);
    RoundBetween(clampedPercents, 0, 50);
    assert Abs(Sign(dy) * n as real) == n as real;
    RoundInteger(50);
    SignTimes(dy, n as real);
    IntIsInteger(50 + (if dy > 0.0 then n else if dy < 0.0 then -n else 0));
    50.0 + Sign(dy) * n as real
  }

  /** The vertical offset's magnitude, capped at `dyMax`, scaled so that
      `dyMax` is 50. */
  function VerticalPercent(dy: real, dyMax: real): (p: real)
    requires dyMax > 0.0
    ensures 0.0 <= p <= 50.0
    ensures Abs(dy) >= dyMax ==> p == 50.0
    ensures p * dyMax == Min(dyMax, Abs(dy)) * 50.0
  {
    var clamped := Min(dyMax, Abs(dy));
    var p := clamped / dyMax * 50.0;
    PercentOfCap(clamped, dyMax, p);
    p
  }

  /** A magnitude capped at `cap`, as a percentage of `cap` scaled by one
      half, lies in [0, 50] and is 50 at the cap. */
  lemma PercentOfCap(clamped: real, cap: real, p: real)
    requires cap > 0.0 && 0.0 <= clamped <= cap
    requires p == clamped / cap * 50.0
    ensures 0.0 <= p <= 50.0
    ensures clamped == cap ==> p == 50.0
    ensures p * cap == clamped * 50.0
  {
    DivBetween(clamped, cap);
    DivTimes(clamped, cap);
    if clamped == cap {
      DivTimes(cap, cap);
    }
  }

  /** Dividing by a non-zero number and multiplying back cancels; a number
      over itself is 1. */
  lemma DivTimes(a: real, b: real)
    requires b != 0.0
    ensures (a / b) * b == a
    ensures a == b ==> a / b == 1.0
  {
  }

  /** Rounding keeps a number between two integers. */
  lemma RoundBetween(x: real, lo: int, hi: int)
    requires lo as real <= x <= hi as real
    ensures lo <= Round(x) <= hi
  {
  }

  /** The horizontal scrollbar position for an offset `dx`, with `dxMax`
      half the artboard width: the same guarantees as the vertical one,
      except that the signed capped offset is rounded, not its magnitude. */
  function HorizontalPosition(dx: real, dxMax: real): (r: real)
    requires dxMax > 0.0
    ensures 0.0 <= r <= 100.0 && IsInteger(r)
    ensures dx == 0.0 ==> r == 50.0
    ensures Abs(dx) >= dxMax ==> r == 50.0 + 50.0 * Sign(dx)
    ensures r > 50.0 ==> dx > 0.0
    ensures r < 50.0 ==> dx < 0.0
    ensures (r - 50.0) - 0.5 <= Max(-dxMax, Min(dxMax, dx)) / dxMax * 50.0 < (r - 50.0) + 0.5
  {
    var clamped := Max(-dxMax, Min(dxMax, dx));
    var clampedPercents := HorizontalPercent(clamped, dxMax);
    var n := Round(clampedPercents);
    RoundBetween(clampedPercents, -50, 50);
    RoundInteger(50);
    RoundInteger(-50);
    RoundInteger(0);
    IntIsInteger(50 + n);
    50.0 + n as real
  }

  /** The capped horizontal offset as a signed percentage in [-50, 50]. */
  function HorizontalPercent(clamped: real, dxMax: real): (p: real)
    requires dxMax > 0.0 && -dxMax <= clamped <= dxMax
    ensures -50.0 <= p <= 50.0
    ensures p > 0.0 <==> clamped > 0.0
    ensures p < 0.0 <==> clamped < 0.0
    ensures clamped == dxMax ==> p == 50.0
    ensures clamped == -dxMax ==> p == -50.0
    ensures p == clamped / dxMax * 50.0
  {
    HalfFraction(clamped, dxMax);
    (clamped / (2.0 * dxMax)) * 100.0
  }

  lemma HalfFraction(c: real, m: real)
    requires m > 0.0 && -m <= c <= m
    ensures -50.0 <= c / (2.0 * m) * 100.0 <= 50.0
    ensures c > 0.0 ==> c / (2.0 * m) * 100.0 > 0.0
    ensures c < 0.0 ==> c / (2.0 * m) * 100.0 < 0.0
    ensures c == m ==> c / (2.0 * m) * 100.0 == 50.0
    ensures c == -m ==> c / (2.0 * m) * 100.0 == -50.0
    ensures c / (2.0 * m) * 100.0 == c / m * 50.0
  {
    var f := c / (2.0 * m) * 100.0;
    assert f == c * (50.0 / m);
    assert c / m * 50.0 == c * (50.0 / m);
    assert m * (50.0 / m) == 50.0;
    if c >= 0.0 {
      assert c * (50.0 / m) <= m * (50.0 / m);
    } else {
      assert (-c) * (50.0 / m) <= m * (50.0 / m);
    }
  }

  /** The vertical position is mirror-symmetric about 50; it rounds the
      magnitude of the offset. */
  lemma VerticalPositionMirror(dy: real, dyMax: real)
    requires dyMax > 0.0
    ensures VerticalPosition(-dy, dyMax) == 100.0 - VerticalPosition(dy, dyMax)
  {
  }

  /** The horizontal position rounds the signed offset, halves up, so the two
      axes can differ on the same offset: -2.5 against a half-extent of 50
      gives 48 horizontally and 47 vertically. */
  lemma AxesRoundHalvesDifferently()
    ensures HorizontalPosition(-2.5, 50.0) == 48.0
    ensures VerticalPosition(-2.5, 50.0) == 47.0
  {
    assert Round(-2.5) == -2;
    assert Round(2.5) == 3;
  }

  /** `verticalScrollPos`: 50 while either element is not mounted, else the
      position for the vertical offset of the pane centre from the artboard
      centre. */
  function VerticalScrollPos(scrollPane: Option<Rect>, artboard: Option<Rect>): (r: real)
    requires scrollPane.Some? && artboard.Some? ==> artboard.value.height > 0.0
    ensures 0.0 <= r <= 100.0
    ensures scrollPane.None? || artboard.None? ==> r == 50.0
    ensures scrollPane.Some? && artboard.Some? ==>
      var pane, a := scrollPane.value, artboard.value;
      r == VerticalPosition((pane.top + pane.height / 2.0) - (a.top + a.height / 2.0), a.height / 2.0)
  {
    if scrollPane.None? || artboard.None? then 50.0
    else
      var scrollRect, a := scrollPane.value, artboard.value;
      var artboardCenterY := (a.top - scrollRect.top) + a.height / 2.0;
      var dy := scrollRect.height / 2.0 - artboardCenterY;
      VerticalPosition(dy, a.height / 2.0)
  }

  /** `horizontalScrollPos`, the same for the horizontal offset. */
  function HorizontalScrollPos(scrollPane: Option<Rect>, artboard: Option<Rect>): (r: real)
    requires scrollPane.Some? && artboard.Some? ==> artboard.value.width > 0.0
    ensures 0.0 <= r <= 100.0
    ensures scrollPane.None? || artboard.None? ==> r == 50.0
    ensures scrollPane.Some? && artboard.Some? ==>
      var pane, a := scrollPane.value, artboard.value;
      r == HorizontalPosition((pane.left + pane.width / 2.0) - (a.left + a.width / 2.0), a.width / 2.0)
  {
    if scrollPane.None? || artboard.None? then 50.0
    else
      var scrollRect, a := scrollPane.value, artboard.value;
      var artboardCenterX := (a.left - scrollRect.left) + a.width / 2.0;
      var dx := scrollRect.width / 2.0 - artboardCenterX;
      HorizontalPosition(dx, a.width / 2.0)
  }

  /** The layout the styles give the artboard: absolutely positioned with
      auto margins, so its untransformed centre is the pane's centre, and the
      transform `scale(s) translate(t)` about that centre moves it by `s * t`. */
  predicate RenderedAt(scrollPane: Rect, artboard: Rect, scaleFactor: real, translate: Point)
  {
    && artboard.left - scrollPane.left + artboard.width / 2.0 == scrollPane.width / 2.0 + scaleFactor * translate.x
    && artboard.top - scrollPane.top + artboard.height / 2.0 == scrollPane.height / 2.0 + scaleFactor * translate.y
  }

  /** In that layout each scrollbar position is the position for the
      rendered offset `-(scale * translate)`: 50 when the translation is the
      origin, and never on the same side of 50 as the translation. */
  lemma ScrollPositionsFollowTranslation(scrollPane: Rect, artboard: Rect, scaleFactor: real, translate: Point)
    requires RenderedAt(scrollPane, artboard, scaleFactor, translate)
    requires scaleFactor > 0.0 && artboard.width > 0.0 && artboard.height > 0.0
    ensures translate == Origin ==>
      HorizontalScrollPos(Some(scrollPane), Some(artboard)) == 50.0
      && VerticalScrollPos(Some(scrollPane), Some(artboard)) == 50.0
    ensures HorizontalScrollPos(Some(scrollPane), Some(artboard)) > 50.0 ==> translate.x < 0.0
    ensures HorizontalScrollPos(Some(scrollPane), Some(artboard)) < 50.0 ==> translate.x > 0.0
    ensures VerticalScrollPos(Some(scrollPane), Some(artboard)) > 50.0 ==> translate.y < 0.0
    ensures VerticalScrollPos(Some(scrollPane), Some(artboard)) < 50.0 ==> translate.y > 0.0
    ensures HorizontalScrollPos(Some(scrollPane), Some(artboard))
         == HorizontalPosition(-(scaleFactor * translate.x), artboard.width / 2.0)
    ensures VerticalScrollPos(Some(scrollPane), Some(artboard))
         == VerticalPosition(-(scaleFactor * translate.y), artboard.height / 2.0)
  {
    var dx := scrollPane.width / 2.0 - ((artboard.left - scrollPane.left) + artboard.width / 2.0);
    var dy := scrollPane.height / 2.0 - ((artboard.top - scrollPane.top) + artboard.height / 2.0);
    assert dx == -(scaleFactor * translate.x);
    assert dy == -(scaleFactor * translate.y);
    SignOfProduct(scaleFactor, translate.x);
    SignOfProduct(scaleFactor, translate.y);
  }

  lemma SignOfProduct(s: real, t: real)
    requires s > 0.0
    ensures s * t > 0.0 <==> t > 0.0
    ensures s * t < 0.0 <==> t < 0.0
  {
    if t > 0.0 {
      assert s * t > 0.0;
    } else if t < 0.0 {
      assert s * (-t) > 0.0;
    }
  }

  /** `isScrollbarHidden`: a hidden bar's thumb would fill at least the whole
      bar, a visible bar's thumb at most the whole bar. */
  function IsScrollbarHidden(scaleFactor: real): (hidden: bool)
    ensures scaleFactor > 0.0 && hidden ==> ScrollerSize(scaleFactor) >= 100
    ensures scaleFactor > 0.0 && !hidden ==> ScrollerSize(scaleFactor) <= 100
  {
    QuotientBounds(scaleFactor);
    scaleFactor <= 1.0
  }

  /** The scrollbars are hidden exactly when scrolling cannot move the
      artboard: at a hidden scale every scroll leaves the translation where
      it is, and at a visible scale a scroll of the limit times the scale
      moves a centred artboard of positive width to that limit. */
  lemma ScrollbarHiddenExactlyWhenScrollInert(scaleFactor: real, translate: Point, artboard: Rect,
                                              deltaX: real, deltaY: real)
    ensures IsScrollbarHidden(scaleFactor) ==>
      ScrolledTranslate(translate, scaleFactor, Some(artboard), deltaX, deltaY) == translate
    ensures !IsScrollbarHidden(scaleFactor) && artboard.width > 0.0 ==>
      var limit := TranslateLimit(artboard.width, scaleFactor);
      && limit > 0.0
      && ScrolledTranslate(Origin, scaleFactor, Some(artboard), -(scaleFactor * limit), 0.0).x == limit
  {
    if !IsScrollbarHidden(scaleFactor) && artboard.width > 0.0 {
      var limit := TranslateLimit(artboard.width, scaleFactor);
      assert limit > 0.0 by {
        assert 2.5 * scaleFactor > 0.0;
      }
      assert -(scaleFactor * limit) / scaleFactor == -limit;
    }
  }

  /** `scrollerSize`, the thumb length in percent: `round(100 / scale)`;
      for a visible scrollbar at a scale in (1, 5] it lies in [20, 100]. */
  function ScrollerSize(scaleFactor: real): (r: int)
    requires scaleFactor > 0.0
    ensures 1.0 < scaleFactor <= ZoomControls.CORE_MAX ==> 20 <= r <= 100
    ensures r as real - 0.5 <= 100.0 / scaleFactor < r as real + 0.5
  {
    QuotientBounds(scaleFactor);
    Round(100.0 / scaleFactor)
  }

  /** Where 100 / s lies for a positive scale s. */
  lemma QuotientBounds(s: real)
    ensures 0.0 < s <= 1.0 ==> 100.0 / s >= 100.0
    ensures 1.0 < s ==> 100.0 / s < 100.0
    ensures 0.0 < s <= 5.0 ==> 100.0 / s >= 20.0
  {
    if s > 0.0 {
      assert (100.0 / s) * s == 100.0;
    }
  }

  /** Just above scale 1 the scrollbar is shown but its thumb does not fit
      below 98.5: up to 100 / 99.5 the thumb is 100 long and sits at -1.5,
      and up to 100 / 98.5 it is 99 long and sits at -0.5. */
  lemma ThumbJustAboveOne(scaleFactor: real, scrollPos: real)
    requires 1.0 < scaleFactor && scaleFactor * 98.5 <= 100.0
    ensures !IsScrollbarHidden(scaleFactor)
    ensures scaleFactor * 99.5 <= 100.0 ==>
      ScrollerSize(scaleFactor) == 100 && ScrollerOffset(ScrollerSize(scaleFactor), scrollPos) == -1.5
    ensures scaleFactor * 99.5 > 100.0 ==>
      ScrollerSize(scaleFactor) == 99 && ScrollerOffset(ScrollerSize(scaleFactor), scrollPos) == -0.5
  {
    var q := 100.0 / scaleFactor;
    assert q * scaleFactor == 100.0;
    if scaleFactor * 99.5 <= 100.0 {
      assert q >= 99.5;
    } else {
      assert 98.5 <= q < 99.5;
    }
  }

  /** `scrollerTop` and `scrollerLeft`: the thumb offset in percent, half a
      thumb before the scroll position, never above `98.5 - size` and never
      below 0 while the thumb is at most 98.5 long. */
  function ScrollerOffset(scrollerSize: int, scrollPos: real): (r: real)
    ensures r <= 98.5 - scrollerSize as real
    ensures scrollerSize as real <= 98.5 ==> r >= 0.0
    ensures 0.0 <= scrollPos - scrollerSize as real / 2.0 <= 98.5 - scrollerSize as real ==>
      r == scrollPos - scrollerSize as real / 2.0
    ensures scrollPos - scrollerSize as real / 2.0 >= 98.5 - scrollerSize as real ==>
      r == 98.5 - scrollerSize as real
    ensures scrollerSize as real <= 98.5 && scrollPos - scrollerSize as real / 2.0 <= 0.0 ==> r == 0.0
    ensures scrollerSize as real > 98.5 ==> r == 98.5 - scrollerSize as real
  {
    Min(98.5 - scrollerSize as real, Max(0.0, scrollPos - scrollerSize as real / 2.0))
  }

  /** The component's state: `cssTranslate` and `cssRotate`. */
  class ArtboardView {
    var cssTranslate: Point
    var cssRotate: real

    constructor ()
      ensures cssTranslate == Origin && cssRotate == 0.0
    {
      cssTranslate := Origin;
      cssRotate := 0.0;
    }

    /** The translation is the origin whenever the scale is at most 1. */
    ghost predicate CenteredAt(scaleFactor: real)
      reads this
    {
      scaleFactor <= 1.0 ==> cssTranslate == Origin
    }

    /** `resetToCenter`, also run by the resize observer. */
    method ResetToCenter()
      modifies this
      ensures cssTranslate == Origin && cssRotate == old(cssRotate)
    {
      cssTranslate := Origin;
    }

    /** The effect run when the scale prop changes: at a scale of at most 1
        the translation goes back to the origin. */
    method OnScaleFactorChange(scaleFactor: real)
      modifies this
      ensures CenteredAt(scaleFactor)
      ensures scaleFactor <= 1.0 ==> cssTranslate == Origin
      ensures scaleFactor > 1.0 ==> cssTranslate == old(cssTranslate)
      ensures cssRotate == old(cssRotate)
    {
      if scaleFactor <= 1.0 {
        ResetToCenter();
      }
    }

    /** `scroll`, called for wheel scrolls and pans; `artboard` is the
        artboard's bounding rectangle, `None` while it is not mounted. */
    method Scroll(scaleFactor: real, artboard: Option<Rect>, deltaX: real, deltaY: real)
      modifies this
      ensures cssTranslate == ScrolledTranslate(old(cssTranslate), scaleFactor, artboard, deltaX, deltaY)
      ensures cssRotate == old(cssRotate)
      ensures old(CenteredAt(scaleFactor)) ==> CenteredAt(scaleFactor)
    {
      if artboard.None? || scaleFactor <= 1.0 {
        return;
      }
      var width, height := artboard.value.width, artboard.value.height;
      var xMax := width / (2.5 * scaleFactor);
      var yMax := height / (2.5 * scaleFactor);
      var translate := cssTranslate;
      cssTranslate := Point(Min(Max(translate.x - deltaX / scaleFactor, -xMax), xMax),
                            Min(Max(translate.y - deltaY / scaleFactor, -yMax), yMax));
    }

    /** `rotate`: adds the angle delta, without any bound. */
    method Rotate(angleDelta: real)
      modifies this
      ensures cssRotate == old(cssRotate) + angleDelta
      ensures cssTranslate == old(cssTranslate)
    {
      cssRotate := cssRotate + angleDelta;
    }
  }
}
