/**
  The deviation indicator: the clamp helper, the percent mapping of an
  attitude error, the three-tier status class and the geometry of the
  two deflection bars (app/page.js:18-23, 86-89, 232-241, 264-271).
 */
module Indicator {
  import opened Numeric

  /** `Math.max(lo, Math.min(hi, v))`. */
  function Clamp(v: real, lo: real, hi: real): (r: real)
    ensures lo <= hi ==> lo <= r <= hi
    ensures lo <= v <= hi ==> r == v
    ensures v < lo ==> r == lo
    ensures v > hi ==> r == Max(lo, hi)
  {
    Max(lo, Min(hi, v))
  }

  /**
    Error in degrees to a bar percentage: `clamp(error / 3 * 100, -100, 100)`,
    3 degrees being the full-scale deviation.
   */
  function Offset(error: real): (r: real)
    // saturates at full scale however large the error is
    ensures -100.0 <= r <= 100.0
    ensures error >= 3.0 ==> r == 100.0
    ensures error <= -3.0 ==> r == -100.0
    // is proportional to the error inside the full-scale range
    ensures -3.0 <= error <= 3.0 ==> 3.0 * r == 100.0 * error
    // and keeps its sign
    ensures r >= 0.0 <==> error >= 0.0
    ensures r == 0.0 <==> error == 0.0
  {
    Clamp(error / 3.0 * 100.0, -100.0, 100.0)
  }

  lemma OffsetMonotone(e1: real, e2: real)
    requires e1 <= e2
    ensures Offset(e1) <= Offset(e2)
  {
  }

  /** The three status classes `status-good`, `status-warning` and `status-bad`. */
  datatype Status = Good | Warning | Bad

  /** `getColorClass`: the class for a bar whose magnitude is `progress` percent. */
  function ColorClass(progress: real): (st: Status)
    ensures st == Good <==> progress < 10.0
    ensures st == Warning <==> 10.0 <= progress < 30.0
    ensures st == Bad <==> progress >= 30.0
  {
    if progress < 10.0 then Good
    else if progress < 30.0 then Warning
    else Bad
  }

  function Rank(st: Status): nat {
    match st
    case Good => 0
    case Warning => 1
    case Bad => 2
  }

  /** A larger deviation never gets a better class. */
  lemma ColorClassMonotone(p: real, q: real)
    requires p <= q
    ensures Rank(ColorClass(p)) <= Rank(ColorClass(q))
  {
  }

  /** The class each bar shows, `getColorClass(Math.abs(offset))`, in terms of degrees of error. */
  function ErrorClass(error: real): Status {
    ColorClass(Abs(Offset(error)))
  }

  /**
    The tolerance bands in degrees: below 0.3 degrees the bar is good,
    from 0.3 up to 0.9 degrees a warning, and from 0.9 degrees on bad.
   */
  lemma ErrorClassBands(error: real)
    ensures ErrorClass(error) == Good <==> Abs(error) < 0.3
    ensures ErrorClass(error) == Warning <==> 0.3 <= Abs(error) < 0.9
    ensures ErrorClass(error) == Bad <==> Abs(error) >= 0.9
  {
    var r := Offset(error);
    if -3.0 <= error <= 3.0 {
      assert 3.0 * Abs(r) == 100.0 * Abs(error);
    } else {
      assert Abs(r) == 100.0;
    }
  }

  /** The classes of 0, 9.99, 10, 29.99, 30 and 99, on both sides of each threshold. */
  lemma ColorClassSamples()
    ensures ColorClass(0.0) == Good && ColorClass(9.99) == Good
    ensures ColorClass(10.0) == Warning && ColorClass(29.99) == Warning
    ensures ColorClass(30.0) == Bad && ColorClass(99.0) == Bad
  {
  }

  /**
    A bar fill in percent of its track: `start` is the CSS `left` (or
    `top`), `size` the `width` (or `height`).
   */
  datatype Fill = Fill(start: real, size: real)

  /** The X-axis fill: `width: |x|%`, `left: x >= 0 ? 50% : (50 + x)%`. */
  function HorizontalFill(x: real): (f: Fill)
    ensures f.size == Abs(x)
    // a rightward fill starts at the centre line, a leftward one ends there
    ensures x >= 0.0 ==> f.start == 50.0
    ensures x < 0.0 ==> f.start + f.size == 50.0
  {
    Fill(if x >= 0.0 then 50.0 else 50.0 + x, Abs(x))
  }

  /** The Y-axis fill: `height: |y|%`, `top: y >= 0 ? (50 - |y|)% : 50%`. */
  function VerticalFill(y: real): (f: Fill)
    ensures f.size == Abs(y)
    // an upward fill ends at the centre line, a downward one starts there
    ensures y >= 0.0 ==> f.start + f.size == 50.0
    ensures y < 0.0 ==> f.start == 50.0
  {
    Fill(if y >= 0.0 then 50.0 - Abs(y) else 50.0, Abs(y))
  }

  /** The X-axis fill covers exactly the segment between the centre and `50 + x`. */
  lemma HorizontalSpan(x: real)
    ensures HorizontalFill(x).start == Min(50.0, 50.0 + x)
    ensures HorizontalFill(x).start + HorizontalFill(x).size == Max(50.0, 50.0 + x)
  {
  }

  /** The Y-axis fill covers exactly the segment between the centre and `50 - y` (screen y grows downward). */
  lemma VerticalSpan(y: real)
    ensures VerticalFill(y).start == Min(50.0, 50.0 - y)
    ensures VerticalFill(y).start + VerticalFill(y).size == Max(50.0, 50.0 - y)
  {
  }

  /**
    For an offset produced by `Offset` the fill stays within [-50, 150]
    percent of the track and reaches those ends at full scale.
   */
  lemma FillReach(error: real)
    ensures -50.0 <= HorizontalFill(Offset(error)).start
    ensures HorizontalFill(Offset(error)).start + HorizontalFill(Offset(error)).size <= 150.0
    ensures -50.0 <= VerticalFill(Offset(error)).start
    ensures VerticalFill(Offset(error)).start + VerticalFill(Offset(error)).size <= 150.0
    ensures error >= 3.0 ==> HorizontalFill(Offset(error)) == Fill(50.0, 100.0)
    ensures error >= 3.0 ==> VerticalFill(Offset(error)) == Fill(-50.0, 100.0)
  {
  }
}
