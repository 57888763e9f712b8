# Posture monitor: telemetry smoothing and deviation indicator

A Dafny model of the logic of the artillery pointing dashboard (`app/page.js`,
the `PostureMonitor` component). The dashboard receives IMU (pitch, roll, yaw)
and GNSS (latitude, longitude, altitude) frames over a socket, smooths the
attitude with an exponential moving average of gain 0.1, keeps a rolling log of
at most 51 sampled frames, lets the operator set the current pitch and roll as
the target, and draws the deviation from the target as two bars. A bar shows a
percentage clamped to [-100, 100], with 3 degrees as full scale, and a
three-tier status class.

All quantities are exact `real`s. Modules:

- `Numeric`: `Math.abs`, `Math.min` and `Math.max`.
- `Telemetry`: the parsed frame. An `Inbound` is either `Parsed(Envelope(imu?, gnss?))` or `Malformed`; a numeric field is an `Option<real>`.
- `Smoothing`: the smoothing step, and its behaviour when the same sample is repeated.
- `RollingLog`: `slice(-50)` and the append that rebuilds the log.
- `Indicator`: `clamp`, the percent offset, `getColorClass`, and the bar geometry.
- `Posture`: the state record and the two handlers as functions of it (`Receive`, `SetTarget`), with the lemmas that relate them over whole runs.
- `Monitor`: the component as a class `PostureMonitor`. Its fields are updated in place by `OnMessage` and `SetTarget`, and each method's contract ties the new state to the `Posture` function.

Two facts about the code that the model keeps:

- Log rows hold the raw samples `p`, `r`, `y` (app/page.js:52-54), the values after `parseFloat(...) || 0`, not the smoothed readouts.
- The report saved by SET carries the previous target. This is modelled by `Posture.SetTargetAsWritten`; the class returns the corrected report (see Findings and Left out).

Helpers without a row of their own, and the rows that cover them:

- `Numeric.Abs`, `Numeric.Min` and `Numeric.Max` are `Math.abs`, `Math.min` and `Math.max`. They are used by the `Indicator.Clamp`, `Indicator.Offset` and `Smoothing.Smooth` rows.
- `Telemetry.Sample` is `parseFloat(x) || 0` (app/page.js:36-38). It is covered by the `Posture.Receive` and `Posture.MissingFieldSmoothsToZero` rows.
- `Posture.ReceiveImu` is the `if (data.imu)` branch (app/page.js:35-57). It is covered by the `Posture.Receive` row.
- `Indicator.ErrorClass` is `getColorClass(Math.abs(offset))` (app/page.js:234, 266). It is covered by the `Indicator.ErrorClassBands` row.
- `Posture.XOffset` and `Posture.YOffset` are `xOffset` and `yOffset` (app/page.js:76-77, 88-89). They are covered by the `Posture.OffsetsSaturate` and `Posture.SetTargetCentresBars` rows.
- `Posture.ReportOf` gives the numbers `handleSaveToFile` writes (app/page.js:92-112). It is covered by the `Posture.SetTargetAsWritten` and `Posture.SetTarget` rows.

## Model

| member | source | states |
|---|---|---|
| `Smoothing.Smooth` | app/page.js:41-44 | one step lies between the old value and the sample (no overshoot), shrinks the distance to the sample by exactly 0.9, so strictly unless already equal, and reaches the sample only if it started there |
| `Smoothing.IterateGap` | app/page.js:41-44 | under a constant sample the signed gap after n frames is 0.9^n times the initial gap |
| `Smoothing.IterateNoOvershoot` | app/page.js:41-44 | under a constant sample the value always stays between its start and the sample |
| `Smoothing.MonotoneApproach` | app/page.js:41-44 | each further frame with the same sample strictly reduces the distance to it, whenever the start differs from the sample |
| `Smoothing.Converges` | app/page.js:41-44 | the readout comes within any eps > 0 of a constant sample once n frames arrive with n * eps >= 9 * initial gap |
| `Smoothing.PowBound` | app/page.js:41-44 | 0.9^n * (9 + n) <= 9, the rate bound used for convergence |
| `RollingLog.LastN` | app/page.js:49 | `slice(-n)` yields min(n, length) elements, and they are the input's suffix |
| `RollingLog.Push` | app/page.js:48-56 | after an append the log has 1 to 51 entries, the new entry is last, and before it stand the newest min(50, old length) old entries in their order |
| `RollingLog.PushIsWindow` | app/page.js:48-56 | an append equals taking the newest 51 entries of the old log followed by the new entry |
| `RollingLog.PushFull` | app/page.js:48-56 | on a full log (51 entries) an append drops exactly the oldest entry |
| `RollingLog.WindowOfWindow` | app/page.js:48-56 | trimming to the newest 51 before an append changes nothing |
| `Indicator.Clamp` | app/page.js:18 | the result is in [lo, hi] when lo <= hi, is v itself inside the range, lo below it, and max(lo, hi) above it |
| `Indicator.Offset` | app/page.js:87-89 | the offset is always in [-100, 100], is +100 or -100 for an error of 3 degrees or more either way, is 100/3 times the error inside that range, and keeps the sign and zero of the error |
| `Indicator.OffsetMonotone` | app/page.js:87-89 | a larger error never gives a smaller offset |
| `Indicator.ColorClass` | app/page.js:19-23 | good exactly when progress < 10, warning exactly when 10 <= progress < 30, bad exactly when progress >= 30 |
| `Indicator.ColorClassMonotone` | app/page.js:19-23 | a larger magnitude never gets a better class |
| `Indicator.ErrorClassBands` | app/page.js:19-23 | `ErrorClass`, the class a bar shows for its absolute offset is good below 0.3 degrees of error, warning from 0.3 to below 0.9 degrees, and bad from 0.9 degrees on |
| `Indicator.ColorClassSamples` | app/page.js:19-23 | 0 and 9.99 are good, 10 and 29.99 warning, 30 and 99 bad |
| `Indicator.HorizontalFill` | app/page.js:266-270 | the X fill has width abs(x); for x >= 0 its left edge is the centre (50), and otherwise its right edge is |
| `Indicator.VerticalFill` | app/page.js:234-241 | the Y fill has height abs(y); for y >= 0 its bottom edge is the centre (50), and otherwise its top edge is |
| `Indicator.HorizontalSpan` | app/page.js:266-270 | the X fill covers exactly the segment between 50 and 50 + x |
| `Indicator.VerticalSpan` | app/page.js:234-241 | the Y fill covers exactly the segment between 50 and 50 - y |
| `Indicator.FillReach` | app/page.js:232-270 | for any clamped offset both fills stay within [-50, 150] percent of the track and reach 150 (X) or -50 (Y) at full scale |
| `Posture.Receive` | app/page.js:32-70 | a malformed frame changes nothing; no frame changes the target; without an imu block the attitude and the log are kept; with one, each axis moves a tenth of the way to its sample (0 for a missing field); the log changes only on a logged imu frame, and then gains the raw samples; a gnss block replaces the position wholesale, and without one it is kept; the 51-entry bound is preserved |
| `Posture.WindowStep` | app/page.js:46-57 | if the log is the newest 51 of some history, one more frame leaves it the newest 51 of that history extended by the entry the frame logs, if any |
| `Posture.LogIsNewestEntries` | app/page.js:46-57 | after any series of frames the log is exactly the newest 51 of all entries ever logged, oldest first, so it never exceeds 51 and evicts first in, first out |
| `Posture.LogLengthFromStart` | app/page.js:46-57 | from the initial state the log length is the number of logged frames, capped at 51 |
| `Posture.MissingFieldSmoothsToZero` | app/page.js:36-38 | a missing or non-numeric pitch, roll or yaw field (`Telemetry.Sample` gives 0) multiplies that axis's readout by 0.9, decaying it toward 0 |
| `Posture.FirstFrameScenario` | app/page.js:35-44 | a first frame with samples (5, -2, 1) gives readouts (0.5, -0.2, 0.1) and leaves the log and the position |
| `Posture.OffsetsSaturate` | app/page.js:76-89 | both bar offsets `XOffset` and `YOffset`, computed from the readout minus the target, lie in [-100, 100] and saturate beyond 3 degrees |
| `Posture.SetTargetAsWritten` | app/page.js:123-126 | as written: the new target is (pitch, roll), every other field is unchanged, and the saved report is built from the state before the click |
| `Posture.AsWrittenReportIsStale` | app/page.js:123-126 | as written, the saved report shows the new target if and only if the old target already equalled (pitch, roll) |
| `Posture.StaleTargetReport` | app/page.js:123-126 | attitude (3.2, -1.1) with target (0, 0): SET makes the target (3.2, -1.1) but the report shows (0, 0) |
| `Posture.SetTarget` | app/page.js:123-126 | the target becomes exactly the current (pitch, roll); pitch, roll, yaw, position and log are unchanged; the saved report is of the new state and so shows the new target |
| `Posture.SetTargetCentresBars` | app/page.js:123-124 | right after SET both offsets are 0, both fills are empty at the centre, and both classes are good |
| `Posture.SetTargetScenario` | app/page.js:123-124 | SET at attitude (3.2, -1.1, 0) makes the target and the report's target (3.2, -1.1) |
| `Monitor.PostureMonitor.constructor` | app/page.js:9-16 | the fields start at attitude (0, 0, 0), position (0, 0, 0), target (0, 0) and an empty log |
| `Monitor.PostureMonitor.OnMessage` | app/page.js:32-70 | the new fields are `Posture.Receive` of the old ones, and the log bound is kept |
| `Monitor.PostureMonitor.SetTarget` | app/page.js:123-126 | only `target` is written, and it becomes (pitch, roll); the returned report is that of `Posture.SetTarget` |

## Findings

| source | as written | input that shows it | evidently intended | confidence | as-written member | corrected member |
|---|---|---|---|---|---|---|
| app/page.js:123-126 | `handleSetTarget` calls `setTarget({ pitch, roll })` and then `handleSaveToFile()` from the same render. That closure still sees the previous `target`, because a React state setter does not rebind it, so the saved report's "Target Reference" holds the old target. | attitude (3.2, -1.1, 0) with the initial target (0, 0): SET makes the target (3.2, -1.1), but the report writes 0.00 and 0.00 | the report records the target just set, as the message "Target set to current posture and data saved!" says | high for React's closure semantics; not executed | `Posture.SetTargetAsWritten` (with `Posture.StaleTargetReport`) | `Posture.SetTarget` (used by `Monitor.PostureMonitor.SetTarget`) |

## Left out

- Monitor.PostureMonitor.SetTarget: returns the corrected report of the finding above, not the stale one. The as-written behaviour is modelled by `Posture.SetTargetAsWritten`.
- WebSocket lifecycle (`new WebSocket`, `onopen`, `onclose`, `onerror`, `ws.close()`) and the `connected` flag: network I/O and a display boolean.
- `Math.random() < 0.1`: it becomes the `logIt` parameter of each frame.
- Parsing: `JSON.parse` and `parseFloat` are not modelled. A frame arrives already parsed, as `Malformed` or as an `Envelope`. An IMU field is `None` when missing or NaN; a missing or falsy block is `None`.
- A truthy `imu` value that is not an object has no sub-fields. It is the `imu` block with all three fields `None`.
- Non-numeric GNSS values: the source copies `gnss` fields unconverted, whatever their JSON type; the model's position fields are `Option<real>`.
- Wall-clock time and text formatting: the log row's `time`, `toFixed`, `toLocaleTimeString`/`toLocaleString`, and the report text and file name. The report is modelled as the numbers it contains (`Posture.Report`).
- The download itself (`Blob`, `URL.createObjectURL`, the anchor click), `alert` and `console` calls: browser side effects.
- The "target reached" effect (app/page.js:79-84): it only writes to the console.
- The commented-out page variant after line 289: dead code.
- Rendering: the JSX and its CSS classes beyond the bar anchor expressions. This includes the readouts, whose `gnss.latitude.toFixed(6)` would fail on a position lacking latitude, and the stylesheet. Whether the track clips a fill reaching 150 percent is therefore not modelled.
- React's update batching: each handler runs to completion on the committed state, and `handleSetTarget` is taken to read pitch and roll equal to that state.
- app/PresentPos/page.js (a static screen with fixed data) and imu.py (the telemetry simulator) are not part of this model.
- IEEE-754 double rounding: reals give the intended arithmetic only.
- Non-finite samples are not modelled: ±Infinity from `parseFloat` (the string "Infinity", or a JSON number such as 1e400) and sums that overflow the double range. In the source such a sample makes the readout Infinity on the first frame. Any later finite sample then makes it NaN (`Infinity + (0 - Infinity) * 0.1`), and it stays NaN until reload. A NaN readout gives a NaN offset, the class `status-bad` and a NaN target on SET. The smoothing, convergence and offset-range lemmas hold only for finite samples.
