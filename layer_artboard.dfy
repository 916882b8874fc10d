/** src/features/layer/artboard/Artboard.tsx: the store-backed variant of the
    viewport transform controller. It reads the scale from the layer slice
    through `getScaleFactor`, stores zoom requests with `setScaleFactor`, and
    takes its gestures from src/features/zoom/useWheelGestures.ts and
    src/features/zoom/useTouchGestures.ts, whose zoom and pinch callbacks
    carry an absolute scale candidate. It has no rotation. Its scroll handler
    and scrollbar formulas are those of Artboard. */
module LayerArtboard {
  import opened Basics
  import opened TouchGeometry
  import opened Detectors
  import opened Gestures
  import opened Artboard
  import ZoomControls
  import LayerOptions
  import ZoomTouchGestures
  import ZoomWheelGestures

  /** `zoom`: clamps an absolute candidate into [0.25, 5], without rounding;
      a candidate already in range is passed through. */
  function LayerZoom(newScaleFactor: real): (r: real)
    ensures ZoomControls.CORE_MIN <= r <= ZoomControls.CORE_MAX
    ensures ZoomControls.CORE_MIN <= newScaleFactor <= ZoomControls.CORE_MAX ==> r == newScaleFactor
    ensures newScaleFactor >= ZoomControls.CORE_MAX ==> r == ZoomControls.CORE_MAX
    ensures newScaleFactor <= ZoomControls.CORE_MIN ==> r == ZoomControls.CORE_MIN
  {
    Min(Max(ZoomControls.CORE_MIN, newScaleFactor), ZoomControls.CORE_MAX)
  }

  /** Clamping twice is clamping once; 10 gives 5 and 0.01 gives 0.25. */
  lemma LayerZoomIdempotent(newScaleFactor: real)
    ensures LayerZoom(LayerZoom(newScaleFactor)) == LayerZoom(newScaleFactor)
    ensures LayerZoom(10.0) == 5.0 && LayerZoom(0.01) == 0.25
  {
  }

  /** The scale the component reads back after a zoom, `getScaleFactor` of
      the stored value, also lies in [0.25, 5]. */
  lemma LayerZoomReadBack(newScaleFactor: real)
    ensures ZoomControls.CORE_MIN <= Round2(LayerZoom(newScaleFactor)) <= ZoomControls.CORE_MAX
  {
    Round2StaysInside(LayerZoom(newScaleFactor), ZoomControls.CORE_MIN, ZoomControls.CORE_MAX);
  }

  /** One axis of a pan fed to `scroll`: moving against the delta
      `prev - current` is moving with the fingers. */
  lemma PanAxis(offset: real, prev: real, current: real, scaleFactor: real, limit: real)
    requires scaleFactor > 0.0
    ensures ScrollAxis(offset, prev - current, scaleFactor, limit)
         == Min(Max(offset + (current - prev) / scaleFactor, -limit), limit)
  {
    assert (prev - current) / scaleFactor == -((current - prev) / scaleFactor);
  }

  /** A two-finger pan reported by the touch hook and fed to `scroll` moves
      the translation by the midpoint displacement over the scale, before
      clamping: the content follows the fingers. */
  lemma PanThenScroll(prev: TouchEvent, event: TouchEvent, currentScaleFactor: real,
                      translate: Point, artboard: Rect)
    requires Measured(prev) && Measured(event)
    requires IsPan(event, prev)
    requires currentScaleFactor > 1.0
    ensures |ZoomTouchGestures.ZoomTouchMoveCallbacks(Some(prev), event, currentScaleFactor)| == 1
    ensures var g := ZoomTouchGestures.ZoomTouchMoveCallbacks(Some(prev), event, currentScaleFactor)[0];
      var mid, prevMid := CalcFingersMidpoint(event), CalcFingersMidpoint(prev);
      var xMax, yMax := TranslateLimit(artboard.width, currentScaleFactor), TranslateLimit(artboard.height, currentScaleFactor);
      && g.Pan?
      && ScrolledTranslate(translate, currentScaleFactor, Some(artboard), g.deltaX, g.deltaY)
         == Point(Min(Max(translate.x + (mid.x - prevMid.x) / currentScaleFactor, -xMax), xMax),
                  Min(Max(translate.y + (mid.y - prevMid.y) / currentScaleFactor, -yMax), yMax))
  {
    var mid, prevMid := CalcFingersMidpoint(event), CalcFingersMidpoint(prev);
    var xMax, yMax := TranslateLimit(artboard.width, currentScaleFactor), TranslateLimit(artboard.height, currentScaleFactor);
    assert ZoomTouchGestures.ZoomTouchMoveCallbacks(Some(prev), event, currentScaleFactor)
        == [Pan(prevMid.x - mid.x, prevMid.y - mid.y)];
    PanAxis(translate.x, prevMid.x, mid.x, currentScaleFactor, xMax);
    PanAxis(translate.y, prevMid.y, mid.y, currentScaleFactor, yMax);
  }

  /** A ctrl+wheel step reported by the wheel hook and fed to `zoom` stores a
      scale at most one step away from a scale in range, on the side the
      wheel points to, and a step past an end of the range stores that end. */
  lemma WheelStepThroughZoom(event: WheelEvent, currentScaleFactor: real)
    requires event.ctrlKey && event.deltaY != 0.0
    requires ZoomControls.CORE_MIN <= currentScaleFactor <= ZoomControls.CORE_MAX
    ensures |ZoomWheelGestures.WheelCallbacks(event, currentScaleFactor)| == 1
    ensures var g := ZoomWheelGestures.WheelCallbacks(event, currentScaleFactor)[0];
      var stored := LayerZoom(g.amount);
      && g.Zoom?
      && Abs(stored - currentScaleFactor) <= ZoomWheelGestures.WheelZoomStep(currentScaleFactor)
      && (event.deltaY < 0.0 ==> stored >= currentScaleFactor)
      && (event.deltaY > 0.0 ==> stored <= currentScaleFactor)
      && (event.deltaY < 0.0 && currentScaleFactor == ZoomControls.CORE_MAX ==> stored == ZoomControls.CORE_MAX)
      && (event.deltaY > 0.0 && currentScaleFactor == ZoomControls.CORE_MIN ==> stored == ZoomControls.CORE_MIN)
  {
  }

  /** The component's state `cssTranslate`; the scale lives in the store. */
  class LayerArtboardView {
    var cssTranslate: Point

    constructor ()
      ensures cssTranslate == Origin
    {
      cssTranslate := Origin;
    }

    /** The translation is the origin whenever the scale read from the store
        is at most 1. */
    ghost predicate CenteredAt(store: LayerOptions.LayerSliceState)
      reads this, store
    {
      store.GetScaleFactor() <= 1.0 ==> cssTranslate == Origin
    }

    /** `resetToCenter`, also run by the resize observer. */
    method ResetToCenter()
      modifies this
      ensures cssTranslate == Origin
    {
      cssTranslate := Origin;
    }

    /** The effect run when the selected scale changes. */
    method OnScaleFactorChange(store: LayerOptions.LayerSliceState)
      modifies this
      ensures CenteredAt(store)
      ensures store.GetScaleFactor() <= 1.0 ==> cssTranslate == Origin
      ensures store.GetScaleFactor() > 1.0 ==> cssTranslate == old(cssTranslate)
    {
      var scaleFactor := store.GetScaleFactor();
      if scaleFactor <= 1.0 {
        ResetToCenter();
      }
    }

    /** `zoom`: dispatches `setScaleFactor` with the clamped candidate. */
    method Zoom(store: LayerOptions.LayerSliceState, newScaleFactor: real)
      modifies store
      ensures store.zoomScaleFactor == LayerZoom(newScaleFactor)
      ensures ZoomControls.CORE_MIN <= store.GetScaleFactor() <= ZoomControls.CORE_MAX
    {
      var clampedScaleFactor := LayerZoom(newScaleFactor);
      store.SetScaleFactor(clampedScaleFactor);
      LayerZoomReadBack(newScaleFactor);
    }

    /** `scroll`, with the scale read from the store; `artboard` is the
        artboard's bounding rectangle, `None` while it is not mounted. */
    method Scroll(store: LayerOptions.LayerSliceState, artboard: Option<Rect>, deltaX: real, deltaY: real)
      modifies this
      ensures cssTranslate == ScrolledTranslate(old(cssTranslate), store.GetScaleFactor(), artboard, deltaX, deltaY)
      ensures old(CenteredAt(store)) ==> CenteredAt(store)
    {
      var scaleFactor := store.GetScaleFactor();
      if artboard.None? || scaleFactor <= 1.0 {
        return;
      }
      var width, height := artboard.value.width, artboard.value.height;
      var xMax := width / (2.5 * scaleFactor);
      var yMax := height / (2.5 * scaleFactor);
      var translate := cssTranslate;
      cssTranslate := Point(Min(Max(translate.x - deltaX / scaleFactor, -xMax), xMax),
                            Min(Max(translate.y - deltaY / scaleFactor, -yMax), yMax));
    }

    /** The callbacks the component attaches to both hooks: zoom and pinch
        go to `zoom`, scroll and pan go to `scroll`. */
    method Dispatch(store: LayerOptions.LayerSliceState, artboard: Option<Rect>, g: Gesture)
      modifies this, store
      ensures (g.Zoom? || g.Pinch?) ==> cssTranslate == old(cssTranslate)
      ensures g.Zoom? ==> store.zoomScaleFactor == LayerZoom(g.amount)
      ensures g.Pinch? ==> store.zoomScaleFactor == LayerZoom(g.scaleFactor)
      ensures (g.Scroll? || g.Pan?) ==> store.zoomScaleFactor == old(store.zoomScaleFactor)
      ensures g.Scroll? ==> cssTranslate == ScrolledTranslate(old(cssTranslate), store.GetScaleFactor(), artboard, g.deltaX, g.deltaY)
      ensures g.Pan? ==> cssTranslate == ScrolledTranslate(old(cssTranslate), store.GetScaleFactor(), artboard, g.deltaX, g.deltaY)
    {
      match g
      case Zoom(amount) => Zoom(store, amount);
      case Pinch(scaleFactor) => Zoom(store, scaleFactor);
      case Scroll(deltaX, deltaY) => Scroll(store, artboard, deltaX, deltaY);
      case Pan(deltaX, deltaY) => Scroll(store, artboard, deltaX, deltaY);
    }
  }

  /** The pinch calibration carried through the store: a pinch to 1.4 is
      stored as 1.4 and read back as 1.4. */
  method PinchCalibrationStored(store: LayerOptions.LayerSliceState, view: LayerArtboardView)
    modifies store
    ensures store.zoomScaleFactor == 1.4 && store.GetScaleFactor() == 1.4
  {
    view.Zoom(store, 1.4);
    assert IsHundredths(1.4) by {
      assert 1.4 * 100.0 == 140.0;
    }
    Round2Exact(1.4);
  }
}
