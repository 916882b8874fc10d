# react-artboard viewport and gesture engine, in Dafny

This project models the viewport-transform and gesture-classification core
of react-artboard, a React drawing surface that can be zoomed, panned and
rotated. The core has these parts:

- **Range mapping.** `scaleValue` is the affine map between two numeric
  ranges. It maps screen points onto the 400 x 400 logical canvas
  (`getPos`) and converts scales to and from the percentages shown in the
  zoom widget.
- **Two-finger geometry.** It computes the finger distance and midpoint.
  A 3 px detector tells pans from pinches.
- **Gesture sources.** Two copies of a multi-touch hook keep the previous
  touch sample and report `pan` or `pinch`. Two wheel hooks report `zoom`
  or `scroll`. One wheel hook proposes an absolute scale; the other reports
  a fixed delta of +10 or -10.
- **Viewport controllers.** The two `Artboard` components:
  - clamp the scale into [0.25, 5]; the prop-driven one also rounds to two
    decimals;
  - clamp the translation per axis to `size / (2.5 * scale)`;
  - reset the translation to the origin whenever the scale is at most 1;
  - accumulate rotation;
  - derive the scrollbar geometry from the rendered rectangles.
- **Zoom controls and store slice.** The zoom widget steps, clamps and
  converts its input. The store slice holds the scale and reads it back to
  two decimals.

Everything is stated over Dafny's `real` numbers:

- `Math.round` is `Floor(x + 1/2)`.
- `Number(x.toFixed(2))` is rounding half up to hundredths, which is what toFixed does for non-negative x.
- `Math.sign` gives 0 for 0.

`Math.hypot` has no counterpart. Each touch event therefore carries the
distance its host computed, and the predicate `Measured` ties that distance
to the touches: it is non-negative and its square is the sum of the squared
coordinate differences. `HypotUnique` shows that this fixes the distance.

The callbacks a hook invokes are returned as a sequence of `Gesture`
values, in call order. The empty sequence means no callback was invoked,
either because the logger branch was taken or because nothing applied.

The model follows the source's form:

- Hooks and components whose refs or state change are classes with
  `modifies` clauses. Their methods are proved against the pure functions
  that describe one step.
- Pure code is functions and lemmas.
- The scroll handler and the scrollbar formulas are identical in both
  `Artboard` files. They are modelled once, in module `Artboard`, and reused
  by `LayerArtboard`.

On one point the unit tests and the code disagree. The last test in
src/utils/range.spec.ts expects `scaleValue` to throw for a value outside
the original range, but src/utils/range.ts performs no check and returns
an extrapolated value. The model follows the code (`Range.ScaleValue`). It
adds the validating variant the test describes (`Range.ScaleValueChecked`)
and a lemma, `Range.OutOfRangeValueIsNotRejected`, that shows the two
disagree on that test's input.

## Model

| member | source | states |
|---|---|---|
| Basics.Sign | src/features/artboard/Artboard.tsx:121 | the sign is -1, 0 or 1; it is 0 exactly for 0; sign times magnitude gives the number back |
| Basics.Round | src/features/artboard/Artboard.tsx:121 | `Math.round` picks the integer at most half below and less than half above the number |
| Basics.Round2 | src/features/layer/layerOptionsSlice.ts:26 | `Number(x.toFixed(2))` has at most two decimals and is within half a hundredth of x |
| Basics.Round2Exact | src/features/layer/layerOptionsSlice.ts:26 | a number that already has two decimals is left unchanged |
| Basics.Round2Idempotent | src/features/layer/layerOptionsSlice.ts:26 | rounding to two decimals twice equals rounding once |
| Basics.Round2StaysInside | src/features/zoom/ZoomControls.tsx:36-37 | rounding a number in an interval whose ends have two decimals keeps it in that interval |
| Basics.ClampOrders | src/features/artboard/Artboard.tsx:50 | `min(max(v, lo), hi)` and `max(lo, min(v, hi))` agree and lie in [lo, hi] when lo <= hi |
| Range.ScaleValue | src/utils/range.ts:7-9 | the start and end of the original range map onto the start and end of the target range; the original range must have non-zero width |
| Range.ScaleValueChecked | src/utils/range.spec.ts:33-35 | the validating variant fails exactly for values outside the original range; otherwise it agrees with ScaleValue and lands in the target range |
| Range.ScaleValueStaysInRange | src/utils/range.ts:8 | a value inside the original range maps inside the target range |
| Range.ScaleValueRoundTrip | src/utils/range.ts:8 | mapping A onto B and then B onto A returns the value, when both ranges have non-zero width |
| Range.ScaleValueMonotone | src/utils/range.ts:8 | with both ranges increasing, the map preserves order |
| Range.ScaleValueMidpoint | src/utils/range.ts:8 | the midpoint of the original range maps to the midpoint of the target range |
| Range.ScaleValueTestCases | src/utils/range.spec.ts:10-26 | all seven numeric test cases hold exactly, including 131.4 and 57.8 |
| Range.OutOfRangeValueIsNotRejected | src/utils/range.spec.ts:33-35 | for 1 in [5, 10] onto [0, 100] the code returns -80 where the test expects an error, and the checked variant reports the error |
| TouchGeometry.HypotUnique | src/features/touch/utils.ts:7-10 | only one non-negative number squares to a given sum of squares, so the distance is determined by the touches |
| TouchGeometry.CalcFingersDistance | src/features/touch/utils.ts:7-10 | the distance is non-negative and is zero exactly when both fingers are at the same point; two touches are required |
| TouchGeometry.CalcFingersMidpoint | src/features/touch/utils.ts:12-15 | the two fingers lie symmetrically about the midpoint on each axis |
| TouchGeometry.SwapFingersSymmetric | src/features/touch/utils.ts:7-15 | for any two measured events whose touches are each other's first two fingers exchanged, the distance and the midpoint are the same |
| TouchGeometry.TranslationKeepsDistance | src/features/touch/utils.ts:7-15 | moving both fingers by the same vector keeps the distance and moves the midpoint by that vector |
| Detectors.IsPan | src/features/touch/detectors.ts:8-12 | a sample is a pan exactly when the finger distance moved by less than 3 px in either direction |
| Detectors.IsPinch | src/features/touch/detectors.ts:14-18 | a sample is a pinch exactly when it is not a pan |
| Detectors.BoundaryIsPinch | src/features/touch/detectors.ts:6-18 | a distance change of exactly 3 px is a pinch and not a pan |
| Detectors.DetectorsSymmetric | src/features/touch/detectors.ts:8-18 | both detectors give the same answer when current and previous samples are exchanged |
| Detectors.EqualDistanceIsPan | src/features/touch/detectors.ts:8-12 | equal finger distances always classify as a pan |
| Detectors.TranslationIsPan | src/features/touch/detectors.ts:8-12 | moving both fingers by the same vector is always a pan |
| Gestures.ZoomIntensity | src/features/touch/useTouchGestures.ts:42 | the intensity is 100 or 200, and it is 200 exactly when the scale is below 1 |
| TouchGestures.TouchMoveCallbacks | src/features/touch/useTouchGestures.ts:32-52 | a move reports at most one callback, none without a previous sample, and only pans and pinches; a pan exactly when isPan holds |
| TouchGestures.TouchRun | src/features/touch/useTouchGestures.ts:26-54 | a run of moves reports at most one callback per move, each a pan or a pinch |
| TouchGestures.TouchMoveEmitsOne | src/features/touch/useTouchGestures.ts:32-52 | with a previous sample, a move reports exactly one callback: a pan of previous minus current midpoint exactly when isPan holds, otherwise a pinch to scale + (distance change)/intensity |
| TouchGestures.PinchCalibration | src/features/touch/useTouchGestures.ts:41-51 | fingers going from 100 px to 140 px apart at scale 1 report exactly one pinch, to 1.4 |
| TouchGestures.TouchRunLength | src/features/touch/useTouchGestures.ts:26-54 | a run of moves reports one callback per move, except for the first move after a touch start |
| TouchGestures.TouchGestureSource.constructor | src/features/touch/useTouchGestures.ts:17-18 | a new hook has no callbacks attached and no previous sample |
| TouchGestures.TouchGestureSource.Attach | src/features/touch/useTouchGestures.ts:64-67 | attaching installs the callbacks and keeps the previous sample |
| TouchGestures.TouchGestureSource.OnTouchStart | src/features/touch/useTouchGestures.ts:22-24 | touch start clears the previous sample |
| TouchGestures.TouchGestureSource.OnTouchMove | src/features/touch/useTouchGestures.ts:26-54 | without callbacks a move reports nothing and keeps the previous sample; otherwise it reports the move's callbacks (exactly one when there was a previous sample) and records the event |
| TouchGestures.TouchGestureSource.OnTouchEnd | src/features/touch/useTouchGestures.ts:60 | touch end reports nothing |
| ZoomTouchGestures.ZoomTouchMoveCallbacks | src/features/zoom/useTouchGestures.ts:42-61 | a move reports at most one callback, none without a previous sample, and only pans and pinches; a pan exactly when the distance moved by less than 3 px |
| ZoomTouchGestures.ZoomTouchRun | src/features/zoom/useTouchGestures.ts:36-63 | a run of moves reports at most one callback per move, each a pan or a pinch |
| ZoomTouchGestures.SameCallbacksAsTouchVariant | src/features/zoom/useTouchGestures.ts:42-62 | the inline if/else copy reports the same callbacks as the detector-based copy for every previous sample, event and scale |
| ZoomTouchGestures.SameRunAsTouchVariant | src/features/zoom/useTouchGestures.ts:36-63 | for the same event sequence both copies report the same callbacks |
| ZoomTouchGestures.PinchSensitivity | src/features/zoom/useTouchGestures.ts:51-58 | a move that is not a pan reports one pinch whose scale moves by the distance change over 200 below scale 1 and over 100 otherwise |
| ZoomTouchGestures.ZoomTouchGestureSource.constructor | src/features/zoom/useTouchGestures.ts:27-28 | a new hook has no callbacks attached and no previous sample |
| ZoomTouchGestures.ZoomTouchGestureSource.Attach | src/features/zoom/useTouchGestures.ts:73-76 | attaching installs the callbacks and keeps the previous sample |
| ZoomTouchGestures.ZoomTouchGestureSource.OnTouchStart | src/features/zoom/useTouchGestures.ts:32-34 | touch start clears the previous sample |
| ZoomTouchGestures.ZoomTouchGestureSource.OnTouchMove | src/features/zoom/useTouchGestures.ts:36-63 | without callbacks a move reports nothing and keeps the previous sample; otherwise it reports the move's callbacks and records the event |
| ZoomTouchGestures.ZoomTouchGestureSource.OnTouchEnd | src/features/zoom/useTouchGestures.ts:69 | touch end reports nothing |
| ZoomWheelGestures.WheelZoomStep | src/features/zoom/useWheelGestures.ts:20 | the step is 0.05 below scale 1 and 0.1 otherwise |
| ZoomWheelGestures.WheelCallbacks | src/features/zoom/useWheelGestures.ts:19-30 | at most one callback; without ctrl a scroll with the deltas unchanged; with ctrl nothing if deltaY is 0, otherwise a zoom one step away from the scale, upwards exactly when deltaY < 0 |
| ZoomWheelGestures.ZoomWheelGestureSource.constructor | src/features/zoom/useWheelGestures.ts:11 | a new hook has no callbacks attached |
| ZoomWheelGestures.ZoomWheelGestureSource.Attach | src/features/zoom/useWheelGestures.ts:34-36 | attaching installs the callbacks |
| ZoomWheelGestures.ZoomWheelGestureSource.HandleWheel | src/features/zoom/useWheelGestures.ts:13-31 | without callbacks nothing is reported; otherwise the callbacks of WheelCallbacks |
| MouseWheelGestures.MouseWheelCallbacks | src/features/mouse/useWheelGestures.ts:21-30 | at most one callback; without ctrl a scroll with the deltas unchanged; with ctrl nothing if deltaY is 0, otherwise a zoom of 10 against the sign of deltaY, whatever the scale |
| MouseWheelGestures.MouseWheelGestureSource.constructor | src/features/mouse/useWheelGestures.ts:13 | a new hook has no callbacks attached |
| MouseWheelGestures.MouseWheelGestureSource.Attach | src/features/mouse/useWheelGestures.ts:34-36 | attaching installs the callbacks |
| MouseWheelGestures.MouseWheelGestureSource.HandleWheel | src/features/mouse/useWheelGestures.ts:15-31 | without callbacks nothing is reported; otherwise the callbacks of MouseWheelCallbacks |
| UseArtboard.ScreenPos | src/features/artboard/useArtboard.ts:17-25 | a mouse event is placed at its client position; a touch event at its first touch when it has one, and at its own client position otherwise |
| UseArtboard.GetPos | src/features/artboard/useArtboard.ts:12-38 | the rectangle's left and top edges map to 0 and its right and bottom edges to 400; each axis is the offset from the edge times 400 over the extent |
| UseArtboard.GetPosRoundTrip | src/features/artboard/useArtboard.ts:26-37 | mapping the logical point back onto the rectangle and adding its left/top gives the screen point again |
| UseArtboard.GetPosAxesIndependent | src/features/artboard/useArtboard.ts:27-36 | x depends only on the horizontal screen position and the rectangle's left and width, and likewise for y |
| UseArtboard.GetPosUsesFirstTouch | src/features/artboard/useArtboard.ts:17-25 | a touch event with at least one touch is placed at its first touch, ignoring the event's own client position |
| ZoomControls.ScaleToPercent | src/features/zoom/ZoomControls.tsx:27-33 | the percentage shown is exactly 100 times the scale |
| ZoomControls.PercentToScale | src/features/zoom/ZoomControls.tsx:44-48 | the scale for a percentage is exactly a hundredth of it |
| ZoomControls.HandleZoom | src/features/zoom/ZoomControls.tsx:35-38 | the reported scale lies in [0.25, 5], has two decimals, saturates at both ends and is within half a hundredth of an in-range candidate |
| ZoomControls.HandleZoomKeepsValidScale | src/features/zoom/ZoomControls.tsx:35-38 | an in-range candidate with two decimals is reported unchanged |
| ZoomControls.HandleZoomExamples | src/features/zoom/ZoomControls.tsx:35-38 | a candidate of 10 gives 5 and a candidate of 0.01 gives 0.25 |
| ZoomControls.MinusButton | src/features/zoom/ZoomControls.tsx:57 | the - button reports a two-decimal scale in [0.25, 5], never above a current scale that is at least 0.25 |
| ZoomControls.PlusButton | src/features/zoom/ZoomControls.tsx:75 | the + button reports a two-decimal scale in [0.25, 5], never below a current scale that is at most 5 |
| ZoomControls.MinusButtonStep | src/features/zoom/ZoomControls.tsx:57 | inside the range the - button moves a two-decimal scale down by exactly 0.25, and 0.25 stays 0.25 |
| ZoomControls.PlusButtonStep | src/features/zoom/ZoomControls.tsx:75 | inside the range the + button moves a two-decimal scale up by exactly 0.25, and 5 stays 5 |
| ZoomControls.ConfirmedPercent | src/features/zoom/ZoomControls.tsx:42 | the confirmed percentage lies in [25, 500]; an in-range input is kept, one at or above 500 becomes 500 and one at or below 25 becomes 25 |
| ZoomControls.ConfirmedScale | src/features/zoom/ZoomControls.tsx:44-49 | the scale reported on Enter has two decimals, lies in [0.25, 5] and is within half a hundredth of the confirmed percentage over 100 |
| ZoomControls.ConfirmRoundTrip | src/features/zoom/ZoomControls.tsx:40-51 | an integer percentage in [25, 500] is reported as that percentage over 100, and the scale-to-percent effect shows the same percentage again |
| ZoomControls.IndexOf | src/features/zoom/ZoomControls.tsx:65 | the index found holds the character and no earlier position does |
| ZoomControls.RemoveFirst | src/features/zoom/ZoomControls.tsx:65 | `replace('%', '')` removes only the first '%', and leaves a string without one unchanged |
| ZoomControls.RemoveFirstExample | src/features/zoom/ZoomControls.tsx:65 | "50%%" becomes "50%" |
| ZoomControls.EditedInput | src/features/zoom/ZoomControls.tsx:65-69 | NaN is ignored; any other number is clamped into [0, MAX_SAFE_INTEGER]: an in-range number is kept, a negative number or minus infinity becomes 0, and a number above MAX_SAFE_INTEGER or plus infinity becomes MAX_SAFE_INTEGER |
| ZoomControls.ZoomControlsState.constructor | src/features/zoom/ZoomControls.tsx:25 | the input starts at 100 |
| ZoomControls.ZoomControlsState.DisplayedPercent | src/features/zoom/ZoomControls.tsx:62 | the input shows the nearest integer to the stored percentage |
| ZoomControls.ZoomControlsState.OnScaleFactorChange | src/features/zoom/ZoomControls.tsx:27-33 | a new scale sets the input to 100 times that scale |
| ZoomControls.ZoomControlsState.OnChange | src/features/zoom/ZoomControls.tsx:64-70 | an edit stores the clamped parsed number, leaves the input unchanged on NaN, and keeps the input within [0, MAX_SAFE_INTEGER] |
| ZoomControls.ZoomControlsState.HandleInputConfirm | src/features/zoom/ZoomControls.tsx:40-51 | only Enter acts: the input is clamped into [25, 500] and the matching scale is reported through handleZoom; any other key changes nothing and reports nothing |
| LayerOptions.LayerSliceState.constructor | src/features/layer/layerOptionsSlice.ts:9-11 | the initial scale is 1 |
| LayerOptions.LayerSliceState.SetScaleFactor | src/features/layer/layerOptionsSlice.ts:17-19 | the reducer stores the payload exactly, without clamping |
| LayerOptions.LayerSliceState.GetScaleFactor | src/features/layer/layerOptionsSlice.ts:26 | the selector reads the stored scale with two decimals, within half a hundredth of it |
| LayerOptions.GetScaleFactorIdempotent | src/features/layer/layerOptionsSlice.ts:17-26 | storing what the selector read and reading again gives the same value |
| LayerOptions.InitialScaleReadsAsOne | src/features/layer/layerOptionsSlice.ts:9-26 | the initial scale reads back as 1 |
| Artboard.ArtboardZoom | src/features/artboard/Artboard.tsx:47-52 | the reported scale lies in [0.25, 5], has two decimals and is handleZoom of scale + delta/intensity |
| Artboard.WheelNotchZoom | src/features/artboard/Artboard.tsx:47-52 | a ctrl+wheel notch reported as ±10, as the mouse hook reports it, moves the candidate scale by 0.1 at or above scale 1 and by 0.05 below, as the zoom wheel hook's candidate does |
| Artboard.TranslateLimit | src/features/artboard/Artboard.tsx:61-62 | the limit times 2.5 times the scale gives the extent back, and the limit of a non-negative extent is non-negative |
| Artboard.ScrollAxis | src/features/artboard/Artboard.tsx:64-67 | one axis ends within [-limit, limit]: it moves by exactly -delta/scale when that stays within the limit, and otherwise stops at the limit it would pass |
| Artboard.ScrolledTranslate | src/features/artboard/Artboard.tsx:54-68 | scrolling is a no-op when the artboard is not mounted or the scale is at most 1; otherwise each axis is clamped on its own |
| Artboard.ScrollStaysInBounds | src/features/artboard/Artboard.tsx:60-67 | after a scroll both axes lie within their limits |
| Artboard.ScrollAxesIndependent | src/features/artboard/Artboard.tsx:64-67 | the horizontal result ignores every vertical input and vice versa |
| Artboard.VerticalPosition | src/features/artboard/Artboard.tsx:116-121 | the vertical position is an integer in [0, 100], 50 when centred, 0 or 100 once the offset reaches its maximum, and on the side of the offset; its distance from 50 is the capped offset magnitude over the maximum times 50, rounded to the nearest integer |
| Artboard.HorizontalPosition | src/features/artboard/Artboard.tsx:132-137 | the horizontal position is an integer in [0, 100], 50 when centred, 0 or 100 once the offset reaches its maximum, and on the side of the offset; it is 50 plus the signed capped offset over the maximum times 50, rounded to the nearest integer |
| Artboard.VerticalPositionMirror | src/features/artboard/Artboard.tsx:118-121 | mirroring the vertical offset mirrors the position about 50 |
| Artboard.AxesRoundHalvesDifferently | src/features/artboard/Artboard.tsx:119-137 | for an offset of -2.5 against a half-extent of 50 the horizontal position is 48 and the vertical one 47 |
| Artboard.VerticalScrollPos | src/features/artboard/Artboard.tsx:109-123 | the vertical scroll position lies in [0, 100], is 50 while either element is not mounted, and otherwise is the vertical position for the pane centre minus the artboard centre, with half the artboard height as maximum |
| Artboard.HorizontalScrollPos | src/features/artboard/Artboard.tsx:125-139 | the horizontal scroll position lies in [0, 100], is 50 while either element is not mounted, and otherwise is the horizontal position for the pane centre minus the artboard centre, with half the artboard width as maximum |
| Artboard.ScrollPositionsFollowTranslation | src/features/artboard/Artboard.tsx:109-139 | for an artboard drawn at scale s and translation t, each position is the position for the offset -(s * t) on its axis: 50 at the origin, and never on the same side of 50 as the translation |
| Artboard.ScrollerSize | src/features/artboard/Artboard.tsx:142 | the thumb size is the nearest integer to 100/scale, and it lies in [20, 100] for a visible scrollbar |
| Artboard.IsScrollbarHidden | src/features/artboard/Artboard.tsx:141-142 | at a positive scale, a hidden scrollbar has a thumb of at least 100 and a visible one a thumb of at most 100 |
| Artboard.ScrollbarHiddenExactlyWhenScrollInert | src/features/artboard/Artboard.tsx:54-68 | when the scrollbar is hidden every scroll leaves the translation unchanged; when it is shown a scroll reaches the positive horizontal limit of a non-empty artboard |
| Artboard.ScrollerOffset | src/features/artboard/Artboard.tsx:143-144 | the thumb offset is never above 98.5 - size and is at least 0 while size is at most 98.5; it is position - size/2 when that fits, 98.5 - size when that is passed or the thumb is longer than 98.5, and 0 when position - size/2 is not positive |
| Artboard.ThumbJustAboveOne | src/features/artboard/Artboard.tsx:141-144 | at a scale in (1, 100/98.5] the scrollbar is shown with a thumb of 100 at offset -1.5 up to 100/99.5, and of 99 at offset -0.5 above that |
| Artboard.ArtboardView.constructor | src/features/artboard/Artboard.tsx:25-26 | translation and rotation start at zero |
| Artboard.ArtboardView.ResetToCenter | src/features/artboard/Artboard.tsx:31-33 | the translation goes back to the origin and the rotation is kept |
| Artboard.ArtboardView.OnScaleFactorChange | src/features/artboard/Artboard.tsx:35-37 | at a scale of at most 1 the translation is reset to the origin; otherwise nothing changes |
| Artboard.ArtboardView.Scroll | src/features/artboard/Artboard.tsx:54-68 | the translation becomes ScrolledTranslate of the old one, the rotation is kept, and "centred whenever the scale is at most 1" is preserved |
| Artboard.ArtboardView.Rotate | src/features/artboard/Artboard.tsx:70-72 | the rotation grows by the delta, without bound, and the translation is kept |
| LayerArtboard.LayerZoom | src/features/layer/artboard/Artboard.tsx:50-53 | the stored scale lies in [0.25, 5]; an in-range candidate is passed through without rounding, and both ends saturate |
| LayerArtboard.LayerZoomIdempotent | src/features/layer/artboard/Artboard.tsx:51 | clamping twice equals clamping once; 10 gives 5 and 0.01 gives 0.25 |
| LayerArtboard.LayerZoomReadBack | src/features/layer/artboard/Artboard.tsx:51-52 | the scale the selector reads back after a zoom also lies in [0.25, 5] |
| LayerArtboard.PanThenScroll | src/features/layer/artboard/Artboard.tsx:65-68 | a two-finger pan fed to scroll moves the translation by +(midpoint - previous midpoint)/scale before clamping |
| LayerArtboard.WheelStepThroughZoom | src/features/layer/artboard/Artboard.tsx:50-53 | a ctrl+wheel step stores a scale at most one step from the current in-range scale, on the side the wheel points to; at an end of the range it stays there |
| LayerArtboard.LayerArtboardView.constructor | src/features/layer/artboard/Artboard.tsx:29 | the translation starts at the origin |
| LayerArtboard.LayerArtboardView.ResetToCenter | src/features/layer/artboard/Artboard.tsx:34-36 | the translation goes back to the origin |
| LayerArtboard.LayerArtboardView.OnScaleFactorChange | src/features/layer/artboard/Artboard.tsx:38-40 | at a stored scale of at most 1 the translation is reset to the origin; otherwise nothing changes |
| LayerArtboard.LayerArtboardView.Zoom | src/features/layer/artboard/Artboard.tsx:50-53 | the store receives the clamped candidate, so the scale read back lies in [0.25, 5] |
| LayerArtboard.LayerArtboardView.Scroll | src/features/layer/artboard/Artboard.tsx:55-69 | the translation becomes ScrolledTranslate of the old one at the stored scale, and "centred whenever the scale is at most 1" is preserved |
| LayerArtboard.LayerArtboardView.Dispatch | src/features/layer/artboard/Artboard.tsx:71-80 | zoom and pinch change only the stored scale; scroll and pan change only the translation |
| LayerArtboard.PinchCalibrationStored | src/features/layer/artboard/Artboard.tsx:50-53 | a pinch to 1.4 is stored as 1.4 and read back as 1.4 |

## Left out

- Throttling: each handler is wrapped in a 10 ms `lodash.throttle`, which
  is timer-based. The model applies every handler call at once.
- DOM and React plumbing is not modelled:
  - `addEventListener`, `removeEventListener` and `preventDefault`;
  - `ResizeObserver`, which only calls `resetToCenter`, itself modelled;
  - refs, `useMemo` and `useCallback`;
  - JSX and the CSS transform strings.
- `getBoundingClientRect` results and events are plain input records. An
  unmounted element is `None`.
- The attached callback objects are modelled as a flag, `attached`.
  Callbacks are reported as returned `Gesture` values instead of being
  called.
- The `react-gestures` package is not part of this model. It supplies both
  hooks of src/features/artboard/Artboard.tsx: the wheel hook that feeds
  `zoom` and `scroll`, and the touch hook that feeds pinch, pan and the
  rotate angle. The handlers themselves are modelled.
- Artboard.WheelNotchZoom: assumes the package's wheel hook reports a
  ctrl+wheel notch as a zoom of 10 against the sign of deltaY, as
  src/features/mouse/useWheelGestures.ts does; that hook is not imported by
  any file of the repository.
- The touch-event router `useTouchEvents` and its `next`, which decide
  which touches reach the multi-touch handlers, are not part of this model.
  The handlers are called directly. Touch start and end only ever reach
  them as the calls `OnTouchStart` and `OnTouchEnd`.
- The logger is not part of this model. Its branch appears only as "no
  callback is reported".
- `getArtboardSize`, imported by src/features/layer/artboard/Artboard.tsx,
  only sets the CSS size of the artboard and is not part of this model.
- Canvas drawing, the styles, the store setup and the app wiring are not
  modelled.
- Exact IEEE-754 behaviour is not modelled: rounding of doubles, overflow
  to infinity, NaN, the binary quirks of `toFixed`, and the rounding of
  `Math.hypot`. Arithmetic is exact over the reals.
- `Number(string)` parsing is not modelled: `OnChange` takes it as a
  function parameter whose result may be NaN, finite or infinite.
- `Math.hypot` is supplied with each touch event (`hypotDistance`) and
  constrained by `Measured`; its computation is not modelled.
- UseArtboard.GetPos: requires a canvas of non-zero width and height. The
  source divides by them and would produce NaN or an infinity for an empty
  canvas, which the model does not represent.
- Artboard.VerticalScrollPos: requires an artboard of positive height, and
  Artboard.HorizontalScrollPos one of positive width, for the same reason.
- Artboard.ScrollerOffset: at scales just above 1 the thumb is 100 or 99
  long, and the source then yields an offset of -1.5 or -0.5
  (`Artboard.ThumbJustAboveOne`), so non-negativity is stated only for
  thumbs of at most 98.5.
- A `TouchEvent`'s own `clientX`/`clientY`, which `getPos` reads when the
  touch list is empty, is whatever the event record holds.
- Basics.Round2: rounds a negative tie such as -0.005 up, towards zero,
  whereas `toFixed` rounds it away from zero; no negative value reaches
  the rounding in the core, which rounds positive scales only.
