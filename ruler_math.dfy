/** The arithmetic of the ruler: how many ticks a value range has, which
    tick an offset selects, where the ticks and the snap targets lie, and
    which value a tick reports. */
module RulerMath {
  import opened JavaNum

  /** `(maxValue - minValue) / scaleValue + 1` with Java's integer division
      (RulerView.java:121, 148). For a proper range the ticks
      `0 .. n - 1` cover `minValue .. maxValue` and one more tick would
      pass `maxValue`. */
  function LineCount(maxValue: int, minValue: int, scaleValue: int): (n: int)
    requires scaleValue != 0
    ensures 0 < scaleValue && minValue <= maxValue ==>
      1 <= n && (n - 1) * scaleValue <= maxValue - minValue < n * scaleValue
  {
    var q := Div(maxValue - minValue, scaleValue);
    assert (q + 1) * scaleValue == q * scaleValue + scaleValue;
    q + 1
  }

  /** `adjustSelectIndex` (RulerView.java:257-263): raise a negative index
      to 0, else lower an index past the last tick to `lineCount - 1`. With
      at least one tick the result is the index in range nearest `index`. */
  function Clamp(index: int, lineCount: int): (r: int)
    ensures 1 <= lineCount ==> 0 <= r < lineCount
    ensures 0 <= index < lineCount ==> r == index
    ensures 1 <= lineCount ==> forall j :: 0 <= j < lineCount ==> Distance(index, r) <= Distance(index, j)
  {
    if index < 0 then 0
    else if index > lineCount - 1 then lineCount - 1
    else index
  }

  function Distance(a: int, b: int): int { Abs(a - b) }

  /** The value the listener receives for tick `index` (RulerView.java:176). */
  function Value(index: int, scaleValue: int, minValue: int): int
  {
    index * scaleValue + minValue
  }

  /** `(int) (offset / width + 0.5f)` followed by `adjustSelectIndex`, where
      `width` is `strokeWidth + scaleWidth` (RulerView.java:230-231, 270-271). */
  function IndexAt(offset: real, width: real, lineCount: int): (r: int)
    requires 0.0 < width
    ensures 1 <= lineCount ==> 0 <= r < lineCount
  {
    Clamp(Trunc(offset / width + 0.5), lineCount)
  }

  /** `(int) (strokeWidth + scaleWidth + 0.5f)`: the whole-pixel spacing of
      the drawn ticks and of the snap targets (RulerView.java:196, 276),
      `width` rounded to the nearest integer, halves up. */
  function GridPitch(width: real): (p: int)
    requires 0.0 < width
    ensures 0 <= p && p as real - 0.5 <= width < p as real + 0.5
  {
    Trunc(width + 0.5)
  }

  /** Every tick of a proper range reports a value inside the range. */
  lemma ValueInRange(maxValue: int, minValue: int, scaleValue: int, index: int)
    requires 0 < scaleValue && minValue <= maxValue
    requires 0 <= index < LineCount(maxValue, minValue, scaleValue)
    ensures minValue <= Value(index, scaleValue, minValue) <= maxValue
  {
    var n := LineCount(maxValue, minValue, scaleValue);
    MulMonotone(index, n - 1, scaleValue);
    MulNonNegative(index, scaleValue);
  }

  /** Later ticks report strictly larger values. */
  lemma ValueIncreasing(scaleValue: int, minValue: int, i: int, j: int)
    requires 0 < scaleValue && i < j
    ensures Value(i, scaleValue, minValue) < Value(j, scaleValue, minValue)
  {
    assert j * scaleValue == i * scaleValue + (j - i) * scaleValue;
    MulAtLeast(j - i, scaleValue);
  }

  /** Turning a tick's value back into an index, as `setBorderValue` does
      with `(value - minValue) / scaleValue`, gives the tick back. */
  lemma IndexOfValue(scaleValue: int, minValue: int, index: int)
    requires scaleValue != 0
    ensures Div(Value(index, scaleValue, minValue) - minValue, scaleValue) == index
  {
    var a := Value(index, scaleValue, minValue) - minValue;
    assert a == index * scaleValue;
    DivUnique(a, scaleValue, index);
  }

  /** The index `setBorderValue` derives from a value inside a proper range
      is in range, and it names the tick at or just below the value. */
  lemma BorderIndex(maxValue: int, minValue: int, scaleValue: int, value: int)
    requires 0 < scaleValue && minValue <= value <= maxValue
    ensures var i := Div(value - minValue, scaleValue);
      0 <= i < LineCount(maxValue, minValue, scaleValue) &&
      Value(i, scaleValue, minValue) <= value < Value(i, scaleValue, minValue) + scaleValue
  {
    var i := Div(value - minValue, scaleValue);
    var n := LineCount(maxValue, minValue, scaleValue);
    if n <= i {
      MulMonotone(n, i, scaleValue);
      assert false;
    }
  }

  /** Below the range Java's truncating `/` rounds the other way: the index
      `setBorderValue` derives from a value under `minValue` is at most 0,
      and it names the tick at or just above the value. */
  lemma BelowRangeIndex(minValue: int, scaleValue: int, value: int)
    requires 0 < scaleValue && value <= minValue
    ensures var i := Div(value - minValue, scaleValue);
      i <= 0 &&
      Value(i, scaleValue, minValue) - scaleValue < value <= Value(i, scaleValue, minValue)
  {
    var i := Div(value - minValue, scaleValue);
    if 1 <= i {
      MulAtLeast(i, scaleValue);
      assert false;
    }
  }

  /** The selected index is the tick nearest the offset: measured in
      ticks of the spacing `width` the index is computed with, no tick in
      range is closer to `offset` than tick `IndexAt(offset, ..)`. */
  lemma NearestTick(offset: real, width: real, lineCount: int, j: int)
    requires 0.0 < width && 1 <= lineCount && 0 <= j < lineCount
    ensures var i := IndexAt(offset, width, lineCount);
      RealAbs(offset / width - i as real) <= RealAbs(offset / width - j as real)
  {
    var x := offset / width;
    var t := Trunc(x + 0.5);
    var i := Clamp(t, lineCount);
    if t < 0 {
      assert x < -0.5 && i == 0;
    } else if t > lineCount - 1 {
      assert x + 0.5 >= lineCount as real && i == lineCount - 1;
    } else {
      assert i == t;
      if x + 0.5 < 0.0 {
        assert t == 0;
      } else {
        assert x - 0.5 < i as real <= x + 0.5;
        if j < i {
          assert j as real <= i as real - 1.0;
        } else if j > i {
          assert j as real >= i as real + 1.0;
        }
      }
    }
  }

  lemma MulMonotone(a: int, b: int, c: int)
    requires a <= b && 0 <= c
    ensures a * c <= b * c
  {
    assert b * c == a * c + (b - a) * c;
    MulNonNegative(b - a, c);
  }

  /** The offset `width * i` that `setBorderValue` gives tick `i` selects
      tick `i` again. */
  lemma OwnOffsetSelectsItself(width: real, lineCount: int, i: int, offset: real)
    requires 0.0 < width && 0 <= i < lineCount && offset == width * i as real
    ensures IndexAt(offset, width, lineCount) == i
  {
    assert offset / width == i as real;
  }

  /** With a whole-pixel tick width the snap grid and the index agree: the
      grid offset of tick `i` selects tick `i` again. */
  lemma WholePixelGridSelectsItself(width: int, lineCount: int, i: int)
    requires 0 < width && 0 <= i < lineCount
    ensures GridPitch(width as real) == width
    ensures IndexAt((i * GridPitch(width as real)) as real, width as real, lineCount) == i
  {
    var w := width as real;
    assert (i * width) as real == i as real * w;
    assert (i as real * w) / w == i as real;
    assert Trunc(i as real + 0.5) == i;
  }

  /** With a fractional tick width the two disagree: at width 136.5 the
      drawn tick 300 and its snap target at 300 * 137 pixels select tick 301. */
  lemma FractionalGridDrifts()
    ensures GridPitch(136.5) == 137
    ensures IndexAt((300 * 137) as real, 136.5, 1000) == 301
  {
    assert 41100.0 / 136.5 + 0.5 == 164673.0 / 546.0;
    assert 301.0 <= 164673.0 / 546.0 < 302.0;
  }
}
