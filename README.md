# RulerView scroll and selection model

`RulerView` is an Android widget: a horizontal ruler of evenly spaced ticks
for a bounded integer range. The user drags it, flicks it, and lets it
settle on a tick. This project models the view's state machine in Dafny
and proves properties of it:

- a touch event moves the scroll offset `leftOffset` and re-selects the tick
  `selectIndex` under the centre;
- the frame driver `computeScroll` runs the phases FLING -> SCROLLER -> NORMAL:
  first a fling, then a short corrective scroll onto the tick grid;
- every draw passes the value of the selected tick to the listener and lays
  out the ticks.

Modules:

- `JavaNum` (`java_num.dfy`): Java's `(int)` cast of a float (`Trunc`,
  truncation toward zero) and Java's integer `/` (`Div`, also truncating
  toward zero), on unbounded `int` and exact `real`.
- `RulerMath` (`ruler_math.dfy`): the tick count, the clamp done by
  `adjustSelectIndex`, the index-to-value mapping, the index an offset
  selects, and the whole-pixel grid pitch. It also holds the lemmas about
  them: values stay in range and increase, the selected tick is the
  nearest, a tick survives the trip to its value and back, a value inside
  the range comes back rounded down to the grid while a value below
  `minValue` comes back rounded up toward it, and the snap
  grid agrees with the index when the tick width is a whole number of
  pixels.
- `RulerWidget` (`ruler_view.dfy`): class `RulerView` with the source's
  fields, and one method per touch event, plus `ComputeScroll`,
  `SetBorderValue`, `DrawLine` and `OnDraw`. The platform `VelocityTracker`
  and `Scroller` are oracles here:
  - the release velocity is a parameter;
  - so are `computeScrollOffset()`'s result, `getCurrX()`, and the final x
    a fling will reach;
  - `startScroll(s, dx)` ends at `s + dx`.

  The class keeps `Valid()`: a non-zero step, a positive tick width, and
  `lineCount` always equal to the tick count of the current range. The
  method contracts also track three properties: the index is clamped, the
  index matches the offset, and the snap target lies on the grid. Four
  client methods replay scenarios on the default configuration:
  `setBorderValue(3000, 500, 1000)`; "drag by -150 px, release, settle";
  the same drag with `setBorderValue` arriving during the corrective
  scroll, which leaves the ruler at rest off the selected tick; and a tap
  during a fling, which makes the ruler jump to the fling's end.

The phase is a datatype `Phase` whose constructors stand for the int
constants 0..3. `Cancel` is handled exactly like `Up`: both start a fling.
`SetBorderValue` does not validate its arguments, does not clamp the index,
and does not reset the phase.

In five places the code does less than a ruler of this kind is meant to
do, and the model follows the code each time:

- A cancelled gesture is meant to end without a fling; the code flings on
  ACTION_CANCEL exactly as on ACTION_UP (RulerView.java:236-237).
- A new range is meant to be accepted only at rest and to put the view back
  in NORMAL; `setBorderValue` (RulerView.java:145-152) neither checks nor
  changes the phase. `BorderDuringSettleScenario` shows the consequence: a
  corrective scroll already under way still ends at the old tick's offset.
- A range with `maxValue < minValue` is meant to be refused; the code
  accepts it. With `maxValue < minValue` and a gap smaller than one
  step, the view gets one tick whose value `minValue` lies above
  `maxValue`. For that reason `ValueInRange` requires `minValue <= maxValue`.
- The index is meant to be recomputed during FLING and frozen during
  SCROLLER, and the code does that; but it also lets a still-running
  scroller move the offset during MOVING without re-selecting
  (RulerView.java:267-273). The model keeps this.
- A tap during a fling is meant to stop the ruler where it is. DOWN aborts
  the scroller (RulerView.java:217) but leaves the phase at FLING, so the
  next `computeScroll` (RulerView.java:275-281) moves the offset to the
  fling's final x and snaps from there. `TapDuringFlingScenario` shows the
  ruler jumping from 300 to 1000. The corrective scroll then keeps running
  during the drag that follows, which is the case just above.

The index is computed at the exact width `strokeWidth + scaleWidth`, but
drawn ticks and snap targets use that width rounded to whole pixels. When
the two differ, the tick drawn under the centre need not be the selected
one. `FractionalGridDrifts` shows a case: at width 136.5 with pitch 137,
the snap target of tick 300 selects tick 301. `WholePixelGridSelectsItself`
shows the two agree when the width is whole.

## Model

| member | source | states |
|---|---|---|
| `JavaNum.Trunc` | app/src/main/java/com/fxyan/demo/rulerview/RulerView.java:230 | the `(int)` cast truncates toward zero: the result is the integer within 1 of `x` on `x`'s side of 0 |
| `JavaNum.Div` | app/src/main/java/com/fxyan/demo/rulerview/RulerView.java:121 | Java's integer `/`: the remainder has the dividend's sign and is smaller than the divisor in magnitude; the quotient of non-negative by positive is non-negative |
| `JavaNum.DivUnique` | app/src/main/java/com/fxyan/demo/rulerview/RulerView.java:149 | any quotient whose remainder meets those conditions equals `Div`, so the truncating quotient is unique |
| `RulerMath.LineCount` | app/src/main/java/com/fxyan/demo/rulerview/RulerView.java:121 | for `scaleValue > 0` and `minValue <= maxValue` there is at least one tick; ticks `0..n-1` stay within `maxValue - minValue`, and tick `n` would pass it |
| `RulerMath.Clamp` | app/src/main/java/com/fxyan/demo/rulerview/RulerView.java:257-263 | with at least one tick the result lies in `[0, lineCount-1]`; an index already in range is kept, so the clamp is idempotent; the result is the in-range index nearest the input |
| `RulerMath.IndexAt` | app/src/main/java/com/fxyan/demo/rulerview/RulerView.java:230-231 | the index an offset selects lies in `[0, lineCount-1]` whenever there is a tick |
| `RulerMath.NearestTick` | app/src/main/java/com/fxyan/demo/rulerview/RulerView.java:270-271 | the index selected by round-then-clamp is the tick nearest the offset, counted in tick widths |
| `RulerMath.GridPitch` | app/src/main/java/com/fxyan/demo/rulerview/RulerView.java:196 | the pitch `(int)(strokeWidth + scaleWidth + 0.5f)` is the tick width rounded to the nearest whole pixel, halves up |
| `RulerMath.Value` | app/src/main/java/com/fxyan/demo/rulerview/RulerView.java:176 | the value tick `index` reports, `index * scaleValue + minValue`; its meaning is proved by `ValueInRange`, `ValueIncreasing` and `IndexOfValue` below |
| `RulerMath.ValueInRange` | app/src/main/java/com/fxyan/demo/rulerview/RulerView.java:176 | for a proper range with a positive step, every tick in range reports a value in `[minValue, maxValue]` |
| `RulerMath.ValueIncreasing` | app/src/main/java/com/fxyan/demo/rulerview/RulerView.java:176 | with a positive step the reported value increases strictly with the index |
| `RulerMath.IndexOfValue` | app/src/main/java/com/fxyan/demo/rulerview/RulerView.java:149 | `(value - minValue) / scaleValue` recovers tick `i` from tick `i`'s value, for every `i` and every non-zero step |
| `RulerMath.BorderIndex` | app/src/main/java/com/fxyan/demo/rulerview/RulerView.java:145-150 | a value inside a proper range gives an in-range index whose tick value is the given value rounded down to the grid |
| `RulerMath.BelowRangeIndex` | app/src/main/java/com/fxyan/demo/rulerview/RulerView.java:149 | a value at or below `minValue` gives an index of at most 0 whose tick value is the given value rounded up to the grid, because Java's `/` truncates toward zero |
| `RulerMath.OwnOffsetSelectsItself` | app/src/main/java/com/fxyan/demo/rulerview/RulerView.java:150 | the offset `width * i` given to tick `i` selects tick `i` again |
| `RulerMath.WholePixelGridSelectsItself` | app/src/main/java/com/fxyan/demo/rulerview/RulerView.java:276-281 | with a whole-pixel tick width the grid pitch equals the width, and the snap target of tick `i` selects tick `i` |
| `RulerMath.FractionalGridDrifts` | app/src/main/java/com/fxyan/demo/rulerview/RulerView.java:276 | at width 136.5 the pitch is 137, and the snap target of tick 300 selects tick 301 |
| `RulerWidget.RulerView.constructor` | app/src/main/java/com/fxyan/demo/rulerview/RulerView.java:55-76 | the configured numbers are stored; `lineCount` is the range's tick count; offset, index and `downX` start at 0; the phase is NORMAL (0); the scroller is finished at 0; with at least one tick all three invariants hold |
| `RulerWidget.RulerView.AdjustSelectIndex` | app/src/main/java/com/fxyan/demo/rulerview/RulerView.java:257-263 | only `selectIndex` changes, and it becomes `Clamp` of its old value |
| `RulerWidget.RulerView.OnTouchEvent` | app/src/main/java/com/fxyan/demo/rulerview/RulerView.java:212-255 | DOWN, MOVE, UP and CANCEL have the effects below, and UP and CANCEL have the same effect; other actions change nothing; the event is always handled; an already clamped index stays clamped, a matching index and offset stay matched, and a snap target on the grid stays on the grid |
| `RulerWidget.RulerView.ActionDown` | app/src/main/java/com/fxyan/demo/rulerview/RulerView.java:215-219 | the scroller is aborted and `downX := x`; offset, index and phase are unchanged |
| `RulerWidget.RulerView.ActionMove` | app/src/main/java/com/fxyan/demo/rulerview/RulerView.java:220-235 | the phase becomes MOVING; `leftOffset' == leftOffset - (x - downX)/1.5`; `downX' == x`; `selectIndex'` is the clamped rounded index of the new offset, so it is in range when there is a tick; the scroller is untouched |
| `RulerWidget.RulerView.ActionRelease` | app/src/main/java/com/fxyan/demo/rulerview/RulerView.java:236-251 | the phase becomes FLING, with a fling from `Trunc(leftOffset + 0.5)` at velocity `-Trunc(xVelocity)` that ends at `flingFinalX`; offset and index are unchanged |
| `RulerWidget.RulerView.ComputeScroll` | app/src/main/java/com/fxyan/demo/rulerview/RulerView.java:265-289 | while running, the offset becomes `currX` and only a FLING re-selects, with the index clamped; in SCROLLER the index is frozen; a finished FLING moves to SCROLLER and starts a scroll that ends at `selectIndex * pitch`; a finished SCROLLER moves to NORMAL with the offset at the scroll's end, which is the selected tick's grid offset when no `setBorderValue` came during the scroll; a finished NORMAL or MOVING changes nothing |
| `RulerWidget.RulerView.SetBorderValue` | app/src/main/java/com/fxyan/demo/rulerview/RulerView.java:145-152 | the new range is stored; `lineCount` is recomputed with the old step; `selectIndex := (value - min) / scaleValue` without clamping; `leftOffset := (scaleWidth + strokeWidth) * selectIndex`; phase and scroller are kept; for a value inside a proper range the index is clamped |
| `RulerWidget.RulerView.DrawLine` | app/src/main/java/com/fxyan/demo/rulerview/RulerView.java:182-199 | one tick per index in `[0, lineCount)`; tick `i` lies at `width/2 + i * pitch`; it is large exactly when `i % largeScaleInterval == 0`, and then it is labelled with its value |
| `RulerWidget.RulerView.OnDraw` | app/src/main/java/com/fxyan/demo/rulerview/RulerView.java:173-180 | the listener receives `selectIndex * scaleValue + minValue`, which lies within `[minValue, maxValue]` when the index is clamped into a proper range; the tick layout is `DrawLine`'s; a labelled selected tick shows the reported value |

## Left out

- Android view lifecycle: style attributes, display metrics and the `init` plumbing (RulerView.java:78-139). This is configuration input; the resulting numbers are constructor parameters.
- Bitmap decoding and recycling, the indicator, text measurement, and every `Canvas`/`Paint` call. This is rasterization. `DrawLine` keeps only the tick positions, kinds and labels, in the canvas that the source translates by `-leftOffset`.
- `VelocityTracker` internals. The release velocity is a parameter. The source's tracker is null until the first DOWN, so a MOVE, UP or CANCEL arriving before any DOWN throws `NullPointerException` (RulerView.java:224, 240); the model instead gives such an event its ordinary effect.
- `Scroller` physics and timing. The running flag, `currX` and a fling's final x are parameters, and the running flag is not tied to the recorded `finished` flag.
- `requestDisallowInterceptTouchEvent` and `invalidate`. These are UI plumbing and redraw scheduling.
- IEEE float rounding and the saturation of `(int)` on huge values. Offsets and widths are exact reals.
- 32-bit integer overflow in the tick count, the index, `startX` and the reported value. Integers are unbounded.
- A zero step. The source's `init` then throws `ArithmeticException`, so the constructor requires `scaleValue != 0`.
- A zero or negative tick width. A zero width makes the float divisions at RulerView.java:230 and 270 give infinities or NaN, which `real` cannot express; a negative width is finite in the source but is a meaningless configuration, so it is excluded too. The constructor requires `strokeWidth + scaleWidth > 0`.
- A zero `largeScaleInterval`. Then `i % largeScaleInterval` (RulerView.java:188) throws `ArithmeticException` on every draw of a non-empty ruler, so `DrawLine` and `OnDraw` require a non-zero interval whenever there is a tick.
- `setListener` and the null-listener check. `OnDraw` returns the value a registered listener receives.
- `MainActivity`. It only wires the listener to a text view.
- RulerWidget.RulerView.SetBorderValue: the contract does not restate that the new offset selects the new index. `OwnOffsetSelectsItself` proves that fact separately, because stating it inside the method's contract made the proof too costly.
