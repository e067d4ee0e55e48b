/** The scroll and selection state machine of `RulerView`: touch events move
    a scroll offset, the frame driver `computeScroll` runs a fling and then a
    short corrective scroll onto the tick grid, and every draw reports the
    value of the selected tick. The platform `VelocityTracker` and
    `Scroller` are oracles: their answers are parameters of the methods. */
module RulerWidget {
  import opened JavaNum
  import opened RulerMath

  /** `RulerView.State` (RulerView.java:291-296): NORMAL = 0, MOVING = 1,
      FLING = 2, SCROLLER = 3. */
  datatype Phase = Normal | Moving | Fling | Scroller

  /** The last request made of the platform `Scroller`. */
  datatype Motion = Idle | Flinging(velocityX: int) | Scrolling(dx: int, duration: int)

  /** What the view can observe of its `Scroller`: the last request, its
      start and final x, and whether it was aborted or has finished. */
  datatype ScrollerState = ScrollerState(motion: Motion, startX: int, finalX: int, finished: bool)

  /** One tick of `drawLine`. `x` is in the canvas that `drawLine` has
      translated by `-leftOffset`; a large tick carries its value as text. */
  datatype Tick = Small(x: int) | Large(x: int, text: int)

  /** A pointer event with its x-coordinate. `Other` is any action the
      switch of `onTouchEvent` ignores. */
  datatype MotionEvent = Down(x: real) | Move(x: real) | Up(x: real) | Cancel(x: real) | Other(x: real)

  // The configuration defaults (RulerView.java:29, 33, 35-38).
  const DefaultScaleWidth: real := 50.0
  const DefaultStrokeWidth: real := 2.0
  const DefaultMaxValue: int := 3000
  const DefaultMinValue: int := 500
  const DefaultScaleValue: int := 100
  const DefaultLargeScaleInterval: int := 5

  /** A drag moves the ruler by the finger's distance divided by this
      (RulerView.java:229). */
  const DragDampening: real := 1.5

  /** Duration in milliseconds of the corrective scroll (RulerView.java:281). */
  const SnapDuration: int := 150

  class RulerView {
    // Geometry and step, fixed once the view is configured.
    const strokeWidth: real
    const scaleWidth: real
    const scaleValue: int
    const largeScaleInterval: int

    // The range, which setBorderValue replaces.
    var maxValue: int
    var minValue: int
    var lineCount: int

    // The scroll and selection state.
    var downX: real
    var leftOffset: real
    var selectIndex: int
    var state: Phase
    var scroller: ScrollerState

    /** What holds of every configured view: a non-zero step (the source
        divides by it), a positive tick width, and the tick count of the
        current range. */
    ghost predicate Valid()
      reads this
    {
      scaleValue != 0 && 0.0 < Width() &&
      lineCount == LineCount(maxValue, minValue, scaleValue)
    }

    /** `strokeWidth + scaleWidth`, the spacing the index is computed with. */
    function Width(): real
    {
      strokeWidth + scaleWidth
    }

    /** The whole-pixel spacing of drawn ticks and snap targets. */
    function Pitch(): int
      requires 0.0 < Width()
    {
      GridPitch(Width())
    }

    /** The ruler has ticks and the selected one is among them. */
    ghost predicate Clamped()
      reads this
    {
      1 <= lineCount && 0 <= selectIndex < lineCount
    }

    /** The selected tick is the one the offset points at. */
    ghost predicate Tracking()
      reads this
      requires 0.0 < Width()
    {
      selectIndex == IndexAt(leftOffset, Width(), lineCount)
    }

    /** A running corrective scroll ends on the selected tick's grid offset. */
    ghost predicate SnapOnGrid()
      reads this
      requires 0.0 < Width()
    {
      state == Scroller ==> scroller.finalX == selectIndex * Pitch()
    }

    twostate predicate SameRange()
      reads this
    {
      maxValue == old(maxValue) && minValue == old(minValue) && lineCount == old(lineCount)
    }

    /** The effect of ACTION_DOWN (RulerView.java:215-219). */
    twostate predicate DownDone(x: real)
      reads this
    {
      SameRange() && downX == x && scroller == old(scroller).(finished := true) &&
      leftOffset == old(leftOffset) && selectIndex == old(selectIndex) && state == old(state)
    }

    /** The effect of ACTION_MOVE (RulerView.java:220-235). */
    twostate predicate MoveDone(x: real)
      reads this
      requires 0.0 < Width()
    {
      SameRange() && state == Moving && downX == x &&
      leftOffset == old(leftOffset) - (x - old(downX)) / DragDampening &&
      selectIndex == IndexAt(leftOffset, Width(), lineCount) && scroller == old(scroller)
    }

    /** The effect of ACTION_UP and of ACTION_CANCEL (RulerView.java:236-251):
        a fling from the offset rounded to a pixel, against the finger's
        velocity, that comes to rest at `flingFinalX`. */
    twostate predicate ReleaseDone(xVelocity: real, flingFinalX: int)
      reads this
    {
      SameRange() && state == Fling && downX == old(downX) &&
      leftOffset == old(leftOffset) && selectIndex == old(selectIndex) &&
      scroller == ScrollerState(Flinging(-Trunc(xVelocity)), Trunc(old(leftOffset) + 0.5), flingFinalX, false)
    }

    /** `init` with the configured numbers (RulerView.java:83-139); a new
        platform `Scroller` is finished and at 0, the fields start at 0. */
    constructor (strokeWidth: real, scaleWidth: real, maxValue: int, minValue: int,
                 scaleValue: int, largeScaleInterval: int)
      requires scaleValue != 0
      requires 0.0 < strokeWidth + scaleWidth
      ensures Valid()
      ensures this.strokeWidth == strokeWidth && this.scaleWidth == scaleWidth
      ensures this.scaleValue == scaleValue && this.largeScaleInterval == largeScaleInterval
      ensures this.maxValue == maxValue && this.minValue == minValue
      ensures lineCount == LineCount(maxValue, minValue, scaleValue)
      ensures downX == 0.0 && leftOffset == 0.0 && selectIndex == 0 && state == Normal
      ensures scroller == ScrollerState(Idle, 0, 0, true)
      ensures 1 <= lineCount ==> Clamped() && Tracking() && SnapOnGrid()
    {
      this.strokeWidth := strokeWidth;
      this.scaleWidth := scaleWidth;
      this.maxValue := maxValue;
      this.minValue := minValue;
      this.scaleValue := scaleValue;
      this.largeScaleInterval := largeScaleInterval;
      lineCount := Div(maxValue - minValue, scaleValue) + 1;
      downX := 0.0;
      leftOffset := 0.0;
      selectIndex := 0;
      state := Normal;
      scroller := ScrollerState(Idle, 0, 0, true);
    }

    /** `adjustSelectIndex` (RulerView.java:257-263). */
    method AdjustSelectIndex()
      modifies this`selectIndex
      ensures selectIndex == Clamp(old(selectIndex), lineCount)
    {
      if selectIndex < 0 {
        selectIndex := 0;
      } else if selectIndex > lineCount - 1 {
        selectIndex := lineCount - 1;
      }
    }

    /** `onTouchEvent` (RulerView.java:212-255). `xVelocity` is what the
        velocity tracker reports at release and `flingFinalX` where the
        platform fling will come to rest; both matter only for UP and
        CANCEL, which are handled alike. */
    method OnTouchEvent(event: MotionEvent, xVelocity: real, flingFinalX: int) returns (handled: bool)
      requires Valid()
      modifies this
      ensures Valid() && handled
      ensures event.Down? ==> DownDone(event.x)
      ensures event.Move? ==> MoveDone(event.x)
      ensures event.Up? || event.Cancel? ==> ReleaseDone(xVelocity, flingFinalX)
      ensures event.Other? ==> unchanged(this)
      ensures event.Move? && 1 <= lineCount ==> Clamped()
      ensures old(Clamped()) ==> Clamped()
      ensures old(Tracking()) ==> Tracking()
      ensures old(SnapOnGrid()) ==> SnapOnGrid()
    {
      match event {
        case Down(x) => ActionDown(x);
        case Move(x) => ActionMove(x);
        case Up(_) => ActionRelease(xVelocity, flingFinalX);
        case Cancel(_) => ActionRelease(xVelocity, flingFinalX);
        case Other(_) =>
      }
      handled := true;
    }

    /** ACTION_DOWN: abort the scroller and remember where the finger is.
        The phase is left as it was. */
    method ActionDown(x: real)
      requires Valid()
      modifies this
      ensures Valid() && DownDone(x)
      ensures old(Clamped()) ==> Clamped()
      ensures old(Tracking()) ==> Tracking()
      ensures old(SnapOnGrid()) ==> SnapOnGrid()
    {
      scroller := scroller.(finished := true);
      downX := x;
    }

    /** ACTION_MOVE: drag the ruler by the dampened finger movement and
        select the tick the new offset points at. */
    method ActionMove(x: real)
      requires Valid()
      modifies this
      ensures Valid() && MoveDone(x)
      ensures 1 <= lineCount ==> Clamped()
      ensures Tracking() && SnapOnGrid()
    {
      state := Moving;
      var offsetX := x - downX;
      leftOffset := leftOffset - offsetX / DragDampening;
      selectIndex := Trunc(leftOffset / Width() + 0.5);
      AdjustSelectIndex();
      downX := x;
    }

    /** ACTION_UP and ACTION_CANCEL: start a fling. */
    method ActionRelease(xVelocity: real, flingFinalX: int)
      requires Valid()
      modifies this
      ensures Valid() && ReleaseDone(xVelocity, flingFinalX)
      ensures old(Clamped()) ==> Clamped()
      ensures old(Tracking()) ==> Tracking()
      ensures SnapOnGrid()
    {
      var velocity := Trunc(xVelocity);
      var startX := Trunc(leftOffset + 0.5);
      state := Fling;
      scroller := ScrollerState(Flinging(-velocity), startX, flingFinalX, false);
    }

    /** `computeScroll` (RulerView.java:265-289). `running` is what
        `computeScrollOffset()` returns and `currX` the scroller's current x.
        While running, the offset follows the scroller, and only a fling
        re-selects. Once a fling has finished, a corrective scroll to the
        selected tick's grid offset starts; once that has finished, the
        offset is pinned to its end and the ruler is idle again. */
    method ComputeScroll(running: bool, currX: int)
      requires Valid()
      modifies this
      ensures Valid() && SameRange() && downX == old(downX)
      ensures running ==> leftOffset == currX as real && state == old(state) && scroller == old(scroller)
      ensures running && old(state).Fling? ==> Tracking()
      ensures running && !old(state).Fling? ==> selectIndex == old(selectIndex)
      ensures !running ==> selectIndex == old(selectIndex)
      ensures !running && old(state).Fling? ==>
        var startX := Trunc(old(scroller.finalX) as real + 0.5);
        state == Scroller && leftOffset == old(scroller.finalX) as real &&
        scroller == ScrollerState(Scrolling(selectIndex * Pitch() - startX, SnapDuration),
                                  startX, selectIndex * Pitch(), false)
      ensures !running && old(state).Scroller? ==>
        state == Normal && leftOffset == old(scroller.finalX) as real && scroller == old(scroller)
      ensures !running && (old(state).Normal? || old(state).Moving?) ==> unchanged(this)
      ensures old(Clamped()) ==> Clamped()
      ensures old(SnapOnGrid()) ==> SnapOnGrid()
      ensures old(SnapOnGrid()) && !running && old(state).Scroller? ==>
        leftOffset == (selectIndex * Pitch()) as real
    {
      if running {
        leftOffset := currX as real;
        if state == Fling {
          selectIndex := Trunc(leftOffset / Width() + 0.5);
          AdjustSelectIndex();
        }
      } else {
        if state == Fling {
          var tempX := selectIndex * Pitch();
          leftOffset := scroller.finalX as real;
          var startX := Trunc(leftOffset + 0.5);
          var dx := startX - tempX;
          state := Scroller;
          // Scroller.startScroll(startX, 0, -dx, 0, duration) ends at startX - dx.
          scroller := ScrollerState(Scrolling(-dx, SnapDuration), startX, startX + -dx, false);
        } else if state == Scroller {
          leftOffset := scroller.finalX as real;
          state := Normal;
        }
      }
    }

    /** `setBorderValue` (RulerView.java:145-152): a new range with the same
        step, and the selection moved to `value`'s tick. Nothing is checked
        or clamped and the phase is kept. For a value inside a proper range
        the selection is in range; `BorderIndex` shows it reports `value`
        rounded down to the grid, `OwnOffsetSelectsItself` that the new offset
        points back at it. */
    method SetBorderValue(newMax: int, newMin: int, value: int)
      requires Valid()
      modifies this
      ensures Valid()
      ensures maxValue == newMax && minValue == newMin
      ensures lineCount == LineCount(newMax, newMin, scaleValue)
      ensures selectIndex == Div(value - newMin, scaleValue)
      ensures leftOffset == (scaleWidth + strokeWidth) * selectIndex as real
      ensures state == old(state) && scroller == old(scroller) && downX == old(downX)
      ensures 0 < scaleValue && newMin <= value <= newMax ==> Clamped()
    {
      var count := Div(newMax - newMin, scaleValue) + 1;
      var index := Div(value - newMin, scaleValue);
      var offset := (scaleWidth + strokeWidth) * index as real;
      if 0 < scaleValue && newMin <= value <= newMax {
        BorderIndex(newMax, newMin, scaleValue, value);
      }
      maxValue := newMax;
      minValue := newMin;
      lineCount := count;
      selectIndex := index;
      leftOffset := offset;
    }

    /** The tick layout loop of `drawLine` (RulerView.java:185-197) for a
        view `width` pixels wide: tick `i` sits `i` pitches right of the
        centre, and every `largeScaleInterval`-th tick is large and labelled
        with its value. The source divides by `largeScaleInterval` once a
        tick is drawn. */
    method DrawLine(width: int) returns (ticks: seq<Tick>)
      requires Valid()
      requires 0 < lineCount ==> largeScaleInterval != 0
      ensures |ticks| == if 0 < lineCount then lineCount else 0
      ensures forall k :: 0 <= k < |ticks| ==> ticks[k].x == Div(width, 2) + k * Pitch()
      ensures forall k :: 0 <= k < |ticks| ==> (ticks[k].Large? <==> k % largeScaleInterval == 0)
      ensures forall k :: 0 <= k < |ticks| && ticks[k].Large? ==>
        ticks[k].text == Value(k, scaleValue, minValue)
    {
      var cx := Div(width, 2);
      var pitch := Pitch();
      var startX := cx;
      ticks := [];
      var i := 0;
      while i < lineCount
        invariant 0 <= i <= (if 0 < lineCount then lineCount else 0)
        invariant |ticks| == i
        invariant startX == cx + i * pitch
        invariant forall k :: 0 <= k < i ==> ticks[k].x == cx + k * pitch
        invariant forall k :: 0 <= k < i ==> (ticks[k].Large? <==> k % largeScaleInterval == 0)
        invariant forall k :: 0 <= k < i && ticks[k].Large? ==>
          ticks[k].text == Value(k, scaleValue, minValue)
      {
        // For i >= 0, Java's `i % n == 0` and Dafny's agree for every n != 0.
        var tick := if i % largeScaleInterval == 0 then Large(startX, minValue + i * scaleValue) else Small(startX);
        ticks := ticks + [tick];
        assert startX + pitch == cx + (i + 1) * pitch;
        startX := startX + pitch;
        i := i + 1;
      }
    }

    /** `onDraw` (RulerView.java:173-180): the value handed to the listener
        and the tick layout. With the selection clamped into a proper range
        the value lies within the range, and a labelled selected tick shows
        it. */
    method OnDraw(width: int) returns (reported: int, ticks: seq<Tick>)
      requires Valid()
      requires 0 < lineCount ==> largeScaleInterval != 0
      ensures reported == Value(selectIndex, scaleValue, minValue)
      ensures Clamped() && 0 < scaleValue && minValue <= maxValue ==> minValue <= reported <= maxValue
      ensures |ticks| == if 0 < lineCount then lineCount else 0
      ensures forall k :: 0 <= k < |ticks| ==> ticks[k].x == Div(width, 2) + k * Pitch()
      ensures forall k :: 0 <= k < |ticks| ==> (ticks[k].Large? <==> k % largeScaleInterval == 0)
      ensures forall k :: 0 <= k < |ticks| && ticks[k].Large? ==>
        ticks[k].text == Value(k, scaleValue, minValue)
      ensures 0 <= selectIndex < |ticks| && ticks[selectIndex].Large? ==> ticks[selectIndex].text == reported
    {
      reported := selectIndex * scaleValue + minValue;
      if Clamped() && 0 < scaleValue && minValue <= maxValue {
        ValueInRange(maxValue, minValue, scaleValue, selectIndex);
      }
      ticks := DrawLine(width);
    }
  }

  /** The default ruler has 26 ticks; setBorderValue(3000, 500, 1000)
      selects tick 5, which reports 1000. */
  method BorderScenario()
  {
    var view := new RulerView(DefaultStrokeWidth, DefaultScaleWidth, DefaultMaxValue,
                              DefaultMinValue, DefaultScaleValue, DefaultLargeScaleInterval);
    assert view.lineCount == 26;
    view.SetBorderValue(3000, 500, 1000);
    assert view.selectIndex == 5 && view.leftOffset == 260.0;
    var reported, ticks := view.OnDraw(1080);
    assert reported == 1000;
  }

  /** A drag of -150 pixels from offset 0 moves the default ruler (width 52)
      to offset 100 and tick 2; a release at rest flings nowhere, and the
      corrective scroll then settles on tick 2's grid offset 104, where the
      tick is drawn under the centre. */
  method DragReleaseSettleScenario()
  {
    var view := new RulerView(DefaultStrokeWidth, DefaultScaleWidth, DefaultMaxValue,
                              DefaultMinValue, DefaultScaleValue, DefaultLargeScaleInterval);
    var handled := view.OnTouchEvent(Down(200.0), 0.0, 0);
    handled := view.OnTouchEvent(Move(50.0), 0.0, 0);
    assert view.leftOffset == 100.0 && view.state == Moving;
    assert view.selectIndex == 2;
    handled := view.OnTouchEvent(Cancel(50.0), 0.0, 100);
    assert view.state == Fling && view.scroller.startX == 100;
    view.ComputeScroll(false, 100);
    assert view.state == Scroller && view.scroller.finalX == 104;
    view.ComputeScroll(true, 102);
    assert view.selectIndex == 2 && view.leftOffset == 102.0;
    view.ComputeScroll(false, 104);
    assert view.state == Normal && view.leftOffset == 104.0;
    var reported, ticks := view.OnDraw(1080);
    assert reported == 700;
    assert ticks[2].x as real - view.leftOffset == 540.0;
  }

  /** setBorderValue does not check the phase: called during the corrective
      scroll it moves the selection to tick 5 (grid offset 260), but the
      scroll still ends at tick 2's grid offset 104, so the ruler comes to
      rest off the selected tick. */
  method BorderDuringSettleScenario()
  {
    var view := new RulerView(DefaultStrokeWidth, DefaultScaleWidth, DefaultMaxValue,
                              DefaultMinValue, DefaultScaleValue, DefaultLargeScaleInterval);
    var handled := view.OnTouchEvent(Down(200.0), 0.0, 0);
    handled := view.OnTouchEvent(Move(50.0), 0.0, 0);
    handled := view.OnTouchEvent(Up(50.0), 0.0, 100);
    view.ComputeScroll(false, 100);
    assert view.state == Scroller && view.scroller.finalX == 104;
    view.SetBorderValue(3000, 500, 1000);
    assert view.selectIndex == 5 && view.state == Scroller;
    view.ComputeScroll(false, 104);
    assert view.state == Normal && view.selectIndex == 5;
    assert view.leftOffset == 104.0 && view.leftOffset != (view.selectIndex * view.Pitch()) as real;
  }

  /** DOWN aborts the scroller but leaves the phase at FLING, so the next
      frame jumps the ruler from 300 to the fling's end at 1000 and starts
      the corrective scroll. A drag then begins there, and the scroll keeps
      moving the offset during MOVING while the index stays at 19. */
  method TapDuringFlingScenario()
  {
    var view := new RulerView(DefaultStrokeWidth, DefaultScaleWidth, DefaultMaxValue,
                              DefaultMinValue, DefaultScaleValue, DefaultLargeScaleInterval);
    var handled := view.OnTouchEvent(Down(200.0), 0.0, 0);
    handled := view.OnTouchEvent(Up(200.0), -4000.0, 1000);
    view.ComputeScroll(true, 300);
    assert view.state == Fling && view.leftOffset == 300.0 && view.selectIndex == 6;
    handled := view.OnTouchEvent(Down(500.0), 0.0, 0);
    assert view.state == Fling && view.scroller.finished;
    view.ComputeScroll(false, 300);
    assert view.state == Scroller && view.leftOffset == 1000.0;
    handled := view.OnTouchEvent(Move(500.0), 0.0, 0);
    assert view.state == Moving && view.selectIndex == 19;
    view.ComputeScroll(true, 700);
    assert view.leftOffset == 700.0 && view.selectIndex == 19;
  }
}
