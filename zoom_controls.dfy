/** src/features/zoom/ZoomControls.tsx: the zoom widget. It shows the scale
    as a percentage in a text input, steps the scale by 0.25 with its - and +
    buttons, and on Enter turns the typed percentage into a scale. Every
    scale it reports is clamped into [0.25, 5] and rounded to two decimals. */
module ZoomControls {
  import opened Basics
  import opened Range

  /** `zoomRange`: the scale range and the percentage range shown for it. */
  const CORE_MIN: real := 0.25
  const CORE_MAX: real := 5.0
  const UI_MIN: real := 25.0
  const UI_MAX: real := 500.0

  /** `SCALE_FACTOR_STEP`. */
  const SCALE_FACTOR_STEP: real := 0.25

  /** `Number.MAX_SAFE_INTEGER`. */
  const MAX_SAFE_INTEGER: real := 9007199254740991.0

  /** The scale-to-percent effect's `scaleValue` from [0.25, 5] onto [25, 500]:
      exactly one hundred times the scale. */
  function ScaleToPercent(scaleFactor: real): (percent: real)
    ensures percent == 100.0 * scaleFactor
  {
    ScaleValue(scaleFactor, (CORE_MIN, CORE_MAX), (UI_MIN, UI_MAX))
  }

  /** The confirm handler's `scaleValue` from [25, 500] onto [0.25, 5]:
      exactly a hundredth of the percentage. */
  function PercentToScale(percent: real): (scaleFactor: real)
    ensures scaleFactor == percent / 100.0
  {
    ScaleValue(percent, (UI_MIN, UI_MAX), (CORE_MIN, CORE_MAX))
  }

  /** `handleZoom`: the scale passed to `onZoom` lies in [0.25, 5], has two
      decimals, saturates at the ends, and is within half a hundredth of an
      in-range candidate. */
  function HandleZoom(newScaleFactor: real): (r: real)
    ensures CORE_MIN <= r <= CORE_MAX
    ensures IsHundredths(r)
    ensures newScaleFactor >= CORE_MAX ==> r == CORE_MAX
    ensures newScaleFactor <= CORE_MIN ==> r == CORE_MIN
    ensures CORE_MIN <= newScaleFactor <= CORE_MAX ==> r - 0.005 <= newScaleFactor < r + 0.005
  {
    var clampedScaleFactor := Max(CORE_MIN, Min(newScaleFactor, CORE_MAX));
    Round2StaysInside(clampedScaleFactor, CORE_MIN, CORE_MAX);
    Round2Exact(CORE_MIN);
    Round2Exact(CORE_MAX);
    Round2(clampedScaleFactor)
  }

  /** A candidate that already has two decimals and lies in range is passed on unchanged. */
  lemma HandleZoomKeepsValidScale(newScaleFactor: real)
    requires CORE_MIN <= newScaleFactor <= CORE_MAX && IsHundredths(newScaleFactor)
    ensures HandleZoom(newScaleFactor) == newScaleFactor
  {
    Round2Exact(newScaleFactor);
  }

  /** The clamping examples: 10 gives 5, 0.01 gives 0.25. */
  lemma HandleZoomExamples()
    ensures HandleZoom(10.0) == 5.0
    ensures HandleZoom(0.01) == 0.25
  {
  }

  /** The - button: a valid scale that never exceeds a scale inside the
      range or above it. */
  function MinusButton(scaleFactor: real): (r: real)
    ensures CORE_MIN <= r <= CORE_MAX && IsHundredths(r)
    ensures scaleFactor >= CORE_MIN ==> r <= scaleFactor
  {
    HandleZoom(scaleFactor - SCALE_FACTOR_STEP)
  }

  /** The + button: a valid scale that is never below a scale inside the
      range or under it. */
  function PlusButton(scaleFactor: real): (r: real)
    ensures CORE_MIN <= r <= CORE_MAX && IsHundredths(r)
    ensures scaleFactor <= CORE_MAX ==> r >= scaleFactor
  {
    HandleZoom(scaleFactor + SCALE_FACTOR_STEP)
  }

  /** Inside the range the - button moves a two-decimal scale down by
      exactly 0.25; at the lower end it leaves the scale where it is. */
  lemma MinusButtonStep(scaleFactor: real)
    requires IsHundredths(scaleFactor)
    ensures CORE_MIN + SCALE_FACTOR_STEP <= scaleFactor <= CORE_MAX ==> MinusButton(scaleFactor) == scaleFactor - SCALE_FACTOR_STEP
    ensures MinusButton(CORE_MIN) == CORE_MIN
  {
    if CORE_MIN + SCALE_FACTOR_STEP <= scaleFactor <= CORE_MAX {
      ShiftKeepsHundredths(scaleFactor, -25);
      HandleZoomKeepsValidScale(scaleFactor - SCALE_FACTOR_STEP);
    }
  }

  /** Inside the range the + button moves a two-decimal scale up by exactly
      0.25; at the upper end it leaves the scale where it is. */
  lemma PlusButtonStep(scaleFactor: real)
    requires IsHundredths(scaleFactor)
    ensures CORE_MIN <= scaleFactor <= CORE_MAX - SCALE_FACTOR_STEP ==> PlusButton(scaleFactor) == scaleFactor + SCALE_FACTOR_STEP
    ensures PlusButton(CORE_MAX) == CORE_MAX
  {
    if CORE_MIN <= scaleFactor <= CORE_MAX - SCALE_FACTOR_STEP {
      ShiftKeepsHundredths(scaleFactor, 25);
      HandleZoomKeepsValidScale(scaleFactor + SCALE_FACTOR_STEP);
    }
  }

  /** Adding a whole number of hundredths keeps two decimals. */
  lemma ShiftKeepsHundredths(x: real, k: int)
    requires IsHundredths(x)
    ensures IsHundredths(x + k as real / 100.0)
  {
    var n := (x * 100.0).Floor;
    assert (x + k as real / 100.0) * 100.0 == (n + k) as real;
    IntIsInteger(n + k);
  }

  /** The confirm handler's clamp of the typed percentage. */
  function ConfirmedPercent(inputValue: real): (r: real)
    ensures UI_MIN <= r <= UI_MAX
    ensures UI_MIN <= inputValue <= UI_MAX ==> r == inputValue
    ensures inputValue >= UI_MAX ==> r == UI_MAX
    ensures inputValue <= UI_MIN ==> r == UI_MIN
  {
    Max(UI_MIN, Min(UI_MAX, inputValue))
  }

  /** The scale the confirm handler reports for a typed percentage: a valid
      scale within half a hundredth of the clamped percentage over 100. */
  function ConfirmedScale(inputValue: real): (r: real)
    ensures CORE_MIN <= r <= CORE_MAX && IsHundredths(r)
    ensures r - 0.005 <= ConfirmedPercent(inputValue) / 100.0 < r + 0.005
  {
    HandleZoom(PercentToScale(ConfirmedPercent(inputValue)))
  }

  /** An integer percentage in [25, 500] survives the confirm handler and the
      scale-to-percent effect unchanged: the reported scale is that
      percentage over 100, and the input then shows the same percentage. */
  lemma ConfirmRoundTrip(percent: int)
    requires 25 <= percent <= 500
    ensures ConfirmedScale(percent as real) == percent as real / 100.0
    ensures ScaleToPercent(ConfirmedScale(percent as real)) == percent as real
    ensures Round(ScaleToPercent(ConfirmedScale(percent as real))) == percent
  {
    var s := percent as real / 100.0;
    assert s * 100.0 == percent as real;
    assert IsHundredths(s);
    HandleZoomKeepsValidScale(s);
    RoundInteger(percent);
  }

  /** The result of `Number(...)` on the edited text. */
  datatype NumberValue = NaN | Finite(value: real) | PositiveInfinity | NegativeInfinity

  /** The index of the first occurrence of `c` in `s`. */
  function IndexOf(s: string, c: char): (i: nat)
    requires c in s
    ensures i < |s| && s[i] == c
    ensures c !in s[..i]
  {
    if s[0] == c then 0
    else
      var j := IndexOf(s[1..], c);
      assert s[..j + 1] == [s[0]] + s[1..][..j];
      j + 1
  }

  /** `replace(c, '')` with a string pattern: only the first occurrence of `c`
      is removed. */
  function RemoveFirst(s: string, c: char): (r: string)
    ensures c !in s ==> r == s
    ensures c in s ==> r == s[..IndexOf(s, c)] + s[IndexOf(s, c) + 1..]
  {
    if s == [] then []
    else if s[0] == c then s[1..]
    else
      var rest := RemoveFirst(s[1..], c);
      assert c in s ==> c in s[1..];
      if c in s then
        var j := IndexOf(s[1..], c);
        assert IndexOf(s, c) == j + 1;
        assert s[..j + 1] == [s[0]] + s[1..][..j];
        assert s[j + 2..] == s[1..][j + 1..];
        [s[0]] + rest
      else
        [s[0]] + rest
  }

  /** A second '%' survives the edit. */
  lemma RemoveFirstExample()
    ensures RemoveFirst("50%%", '%') == "50%"
  {
    assert IndexOf("50%%", '%') == 2;
  }

  /** The edit handler's treatment of the parsed number: NaN is ignored,
      everything else is clamped into [0, MAX_SAFE_INTEGER]. */
  function EditedInput(num: NumberValue): (r: Option<real>)
    ensures r.None? <==> num.NaN?
    ensures r.Some? ==> 0.0 <= r.value <= MAX_SAFE_INTEGER
    ensures num.Finite? && 0.0 <= num.value <= MAX_SAFE_INTEGER ==> r == Some(num.value)
    ensures num.Finite? && num.value < 0.0 ==> r == Some(0.0)
    ensures num.Finite? && num.value > MAX_SAFE_INTEGER ==> r == Some(MAX_SAFE_INTEGER)
    ensures num.PositiveInfinity? ==> r == Some(MAX_SAFE_INTEGER)
    ensures num.NegativeInfinity? ==> r == Some(0.0)
  {
    match num
    case NaN => None
    case Finite(v) => Some(Max(0.0, Min(MAX_SAFE_INTEGER, v)))
    case PositiveInfinity => Some(Max(0.0, Min(MAX_SAFE_INTEGER, MAX_SAFE_INTEGER)))
    case NegativeInfinity => Some(Max(0.0, 0.0))
  }

  /** The widget's state `inputValue` (a percentage). */
  class ZoomControlsState {
    var inputValue: real

    constructor ()
      ensures inputValue == 100.0
    {
      inputValue := 100.0;
    }

    /** The percentage the input shows, `Math.round(inputValue)`. */
    function DisplayedPercent(): (r: int)
      reads this
      ensures r as real - 0.5 <= inputValue < r as real + 0.5
    {
      Round(inputValue)
    }

    /** The effect run when the scale prop changes. */
    method OnScaleFactorChange(scaleFactor: real)
      modifies this
      ensures inputValue == 100.0 * scaleFactor
    {
      inputValue := ScaleToPercent(scaleFactor);
    }

    /** `onChange`: drops the first '%', parses the rest with `parse` (standing
        for `Number`) and stores the clamped number unless it is NaN. */
    method OnChange(text: string, parse: string -> NumberValue)
      modifies this
      ensures EditedInput(parse(RemoveFirst(text, '%'))).None? ==> inputValue == old(inputValue)
      ensures EditedInput(parse(RemoveFirst(text, '%'))).Some? ==>
        inputValue == EditedInput(parse(RemoveFirst(text, '%'))).value
      ensures 0.0 <= old(inputValue) <= MAX_SAFE_INTEGER ==> 0.0 <= inputValue <= MAX_SAFE_INTEGER
    {
      var num := parse(RemoveFirst(text, '%'));
      var edited := EditedInput(num);
      if edited.Some? {
        inputValue := edited.value;
      }
    }

    /** `handleInputConfirm`: on Enter, clamps the input into [25, 500] and
        reports the matching scale through `handleZoom`; other keys do nothing. */
    method HandleInputConfirm(key: string) returns (onZoom: Option<real>)
      modifies this
      ensures key != "Enter" ==> onZoom == None && inputValue == old(inputValue)
      ensures key == "Enter" ==> inputValue == ConfirmedPercent(old(inputValue))
      ensures key == "Enter" ==> onZoom == Some(ConfirmedScale(old(inputValue)))
      ensures key == "Enter" ==> UI_MIN <= inputValue <= UI_MAX
    {
      onZoom := None;
      if key == "Enter" {
        var newInputValue := ConfirmedPercent(inputValue);
        inputValue := newInputValue;
        var newScaleFactor := PercentToScale(newInputValue);
        onZoom := Some(HandleZoom(newScaleFactor));
      }
    }
  }
}
