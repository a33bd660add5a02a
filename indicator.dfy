/** What the two indicator views share: the value types they work with, the
    exceptions their unguarded list indexing can raise, and the scroll
    interpolation that both `onPageScrolled` implementations perform with
    the same clamped indices. */
module Indicator {
  import opened KotlinInt

  datatype Option<T> = None | Some(value: T) {
    function GetOr(default: T): T {
      match this
      case Some(v) => v
      case None => default
    }
  }

  /** The JVM exceptions the views can raise. */
  datatype Failure = IndexOutOfBounds | NullPointer | DivisionByZero

  /** How a `Unit`-returning Kotlin call ends. */
  datatype Status = Returned | Threw(failure: Failure)

  datatype Result<T> = Ok(value: T) | Err(failure: Failure)

  /** android.graphics.PointF, with real coordinates. */
  datatype PointF = PointF(x: real, y: real)

  /** The two View visibilities the indicators use. */
  datatype Visibility = Visible | Gone

  /** The two-bit mode of an Android MeasureSpec; `Reserved` is the fourth,
      unused bit pattern, which the views' `else -> 0` branch catches. */
  datatype MeasureMode = Unspecified | Exactly | AtMost | Reserved

  /** android.graphics.Color constants, as signed 32-bit ARGB values. */
  const Gray: Int32 := -7829368      // 0xFF888888
  const Red: Int32 := -65536         // 0xFFFF0000
  const Transparent: Int32 := 0

  /** The x of the `i`-th shape centre as both layout loops accumulate it:
      the first one at `startX`, each next one `step` further right. */
  function AccumulatedX(i: nat, startX: real, step: real): real {
    if i == 0 then startX else AccumulatedX(i - 1, startX, step) + step
  }

  /** The accumulated x is the closed form `startX + i * step`. */
  lemma {:induction false} AccumulatedXClosedForm(i: nat, startX: real, step: real)
    ensures AccumulatedX(i, startX, step) == startX + i as real * step
  {
    if i > 0 {
      AccumulatedXClosedForm(i - 1, startX, step);
      assert i as real * step == (i - 1) as real * step + step;
    }
  }

  /** The row of `n` centres a layout loop builds on the line `y`. */
  function Row(n: nat, startX: real, step: real, y: real): (cs: seq<PointF>)
    ensures |cs| == n
  {
    seq(n, i requires 0 <= i < n => PointF(AccumulatedX(i, startX, step), y))
  }

  /** Every centre of a row, in closed form. */
  lemma RowClosedForm(n: nat, startX: real, step: real, y: real)
    ensures forall i :: 0 <= i < n ==> Row(n, startX, step, y)[i] == PointF(startX + i as real * step, y)
  {
    forall i | 0 <= i < n
      ensures Row(n, startX, step, y)[i] == PointF(startX + i as real * step, y)
    {
      AccumulatedXClosedForm(i, startX, step);
    }
  }

  /** One more iteration of a layout loop appends one centre, a step further right. */
  lemma RowSnoc(i: nat, startX: real, step: real, y: real)
    ensures Row(i + 1, startX, step, y) == Row(i, startX, step, y) + [PointF(AccumulatedX(i, startX, step), y)]
  {
    var before, after := Row(i, startX, step, y), Row(i + 1, startX, step, y);
    assert forall k :: 0 <= k < i ==> after[k] == before[k];
  }

  /** Adjacent centres are a constant distance apart on one horizontal line. */
  ghost predicate EvenlySpaced(cs: seq<PointF>) {
    (forall i :: 0 < i < |cs| ==> cs[i].y == cs[0].y)
    && (forall i :: 1 < i < |cs| ==> cs[i].x - cs[i - 1].x == cs[1].x - cs[0].x)
  }

  /** A row starts at `startX`, keeps to the line `y`, and each centre lies
      `step` to the right of the one before. */
  lemma RowShape(n: nat, startX: real, step: real, y: real)
    ensures n > 0 ==> Row(n, startX, step, y)[0] == PointF(startX, y)
    ensures forall i :: 0 < i < n ==> Row(n, startX, step, y)[i].x == Row(n, startX, step, y)[i - 1].x + step
    ensures forall i :: 0 <= i < n ==> Row(n, startX, step, y)[i].y == y
    ensures EvenlySpaced(Row(n, startX, step, y))
  {
  }

  /** LinearInterpolator.getInterpolation. */
  function Interpolation(input: real): real {
    input
  }

  /** The highlight position `from + (to - from) * interpolation(t)`. */
  function Lerp(from: real, to: real, t: real): (r: real)
    ensures t == 0.0 ==> r == from
    ensures t == 1.0 ==> r == to
    ensures t == 0.5 ==> r == (from + to) / 2.0
  {
    from + (to - from) * Interpolation(t)
  }

  /** For a fraction in [0, 1] the highlight stays on the segment between
      its two endpoints. */
  lemma LerpBetween(from: real, to: real, t: real)
    requires 0.0 <= t <= 1.0
    ensures from <= to ==> from <= Lerp(from, to, t) <= to
    ensures to <= from ==> to <= Lerp(from, to, t) <= from
  {
    var d := to - from;
    assert d * (1.0 - t) == d - d * t;
    if from <= to {
      assert 0.0 <= d * t && 0.0 <= d * (1.0 - t);
    } else {
      assert d * t <= 0.0 && d * (1.0 - t) <= 0.0;
    }
  }

  /** `min(size - 1, position)`: the index of the page being left. */
  function CurrentPosition(size: nat, position: Int32): (r: int)
    ensures r <= size - 1 && r <= position
    ensures r == size - 1 || r == position
  {
    Min(size - 1, position)
  }

  /** `min(size - 1, (position + 1) % pagerCount)` in 32-bit arithmetic:
      the index of the page being approached. */
  function NextPosition(size: nat, position: Int32, pagerCount: Int32): (r: int)
    requires pagerCount != 0
    ensures r <= size - 1 && r <= Rem(Add(position, 1), pagerCount)
    ensures r == size - 1 || r == Rem(Add(position, 1), pagerCount)
  {
    Min(size - 1, Rem(Add(position, 1), pagerCount))
  }

  /** For a non-negative position (below Int.MAX_VALUE) both clamped indices
      lie in the list, the current one is the position itself when it is a
      page, and the next one is the following page, wrapping to 0 after the
      last. */
  lemma ScrollPositionsInRange(size: nat, position: Int32, pagerCount: Int32)
    requires 1 <= size && 0 < pagerCount
    requires 0 <= position < MaxInt
    ensures 0 <= CurrentPosition(size, position) < size
    ensures 0 <= NextPosition(size, position, pagerCount) < size
    ensures position < size ==> CurrentPosition(size, position) == position
    ensures size == pagerCount ==> NextPosition(size, position, pagerCount) == (position + 1) % size
  {
    RemNonNegative(position + 1, pagerCount);
  }

  /** At position Int.MAX_VALUE, `position + 1` wraps to Int.MIN_VALUE and
      the remainder becomes non-positive: `-(2^31 mod pagerCount)`, which is
      a negative index unless pagerCount divides 2^31. */
  lemma NextPositionAtMaxInt(size: nat, pagerCount: Int32)
    requires 1 <= size && 0 < pagerCount
    ensures NextPosition(size, MaxInt, pagerCount) == -(0x8000_0000 % pagerCount)
  {
  }

  /** With three pages, a scroll reported at position Int.MAX_VALUE asks
      for the centre at index -2, and the lookup throws. */
  lemma NextPositionAtMaxIntWithThreePages(centres: seq<PointF>, offset: real)
    requires |centres| == 3
    ensures NextPosition(3, MaxInt, 3) == -2
    ensures ScrollTarget(centres, 3, MaxInt, offset) == Err(IndexOutOfBounds)
  {
    NextPositionAtMaxInt(3, 3);
  }

  /** The new highlight x of `onPageScrolled` for a non-empty centre list:
      the interpolation between the clamped current and next centres, the
      ArithmeticException of `% 0` when the page count is 0, or the
      IndexOutOfBoundsException that a negative clamped index raises. */
  function ScrollTarget(centres: seq<PointF>, pagerCount: Int32, position: Int32, offset: real): (r: Result<real>)
    requires centres != []
    ensures pagerCount == 0 ==> r == Err(DivisionByZero)
    ensures pagerCount != 0 && position < 0 ==> r == Err(IndexOutOfBounds)
    ensures 0 <= position < MaxInt && 0 < pagerCount ==> r.Ok?
    ensures |centres| == pagerCount && 0 <= position < |centres| ==>
      r == Ok(Lerp(centres[position].x, centres[(position + 1) % |centres|].x, offset))
  {
    var size := |centres|;
    var current := CurrentPosition(size, position);
    if pagerCount == 0 then
      Err(DivisionByZero)
    else
      var next := NextPosition(size, position, pagerCount);
      if 0 <= current && 0 <= next then
        Ok(Lerp(centres[current].x, centres[next].x, offset))
      else
        Err(IndexOutOfBounds)
  }

  /** Offset 0 leaves the highlight on the current page's centre. */
  lemma ScrollAtRest(centres: seq<PointF>, position: Int32)
    requires 0 <= position < |centres| <= MaxInt
    ensures ScrollTarget(centres, |centres|, position, 0.0) == Ok(centres[position].x)
  {
  }

  /** Offset 0.5 puts the highlight halfway between the current centre and
      the next one (the first one again after the last page). */
  lemma ScrollHalfway(centres: seq<PointF>, position: Int32)
    requires 0 <= position < |centres| <= MaxInt
    ensures ScrollTarget(centres, |centres|, position, 0.5)
      == Ok((centres[position].x + centres[(position + 1) % |centres|].x) / 2.0)
  {
  }

  /** Offset 1 brings the highlight onto the next page's centre. */
  lemma ScrollComplete(centres: seq<PointF>, position: Int32)
    requires 0 <= position < |centres| <= MaxInt
    ensures ScrollTarget(centres, |centres|, position, 1.0)
      == Ok(centres[(position + 1) % |centres|].x)
  {
  }
}
