/** The point-style page indicator (PointIndicatorView): a row of circles,
    one per page, a highlight circle that follows the pager, and
    tap-to-select on a circle. */
module PointIndicator {
  import opened KotlinInt
  import opened Indicator

  /** android.graphics.Rect, the integer margins. */
  datatype Rect = Rect(left: Int32, top: Int32, right: Int32, bottom: Int32)

  /** One `canvas.drawCircle` call: centre, radius and paint colour. */
  datatype Circle = Circle(cx: real, cy: real, radius: real, colour: Int32)

  datatype MotionAction = ActionDown | ActionUp | ActionOther

  datatype MotionEvent = MotionEvent(action: MotionAction, x: real, y: real)

  /** What `onTouchEvent` does when it returns: the Boolean it returns and the
      indices it passes to `positionClick`, in call order. */
  datatype Touch = Touch(consumed: bool, clicks: seq<nat>)

  /** The styled attributes `init` reads; `None` is an attribute that the
      layout does not set, for which `init` takes its default. */
  datatype PointAttrs = PointAttrs(
    radius: Option<real>,
    color: Option<Int32>,
    colorSelect: Option<Int32>,
    stroke: Option<real>,
    strokeSelect: Option<real>,
    strokeColor: Option<Int32>,
    strokeColorSelect: Option<Int32>,
    followScroll: Option<bool>,
    marginLeft: Option<real>,
    marginTop: Option<real>,
    marginRight: Option<real>,
    marginBottom: Option<real>,
    space: Option<real>,
    clickEnable: Option<bool>)

  /** The centres `initIndicatorCount` lays out for `n` pages: centre `i`
      at x = paddingLeft + radius + i * (2 * radius + spacing), all at
      y = radius + paddingTop. */
  function PointCentres(n: nat, radius: real, spacing: real, paddingLeft: int, paddingTop: int): seq<PointF> {
    Row(n, radius + paddingLeft as real, radius * 2.0 + spacing, radius + paddingTop as real)
  }

  /** The layout in closed form: one centre per page, adjacent ones a
      diameter plus the spacing apart, the first at the padding corner
      moved by the radius. */
  lemma PointCentresClosedForm(n: nat, radius: real, spacing: real, paddingLeft: int, paddingTop: int)
    ensures |PointCentres(n, radius, spacing, paddingLeft, paddingTop)| == n
    ensures forall i :: 0 <= i < n ==>
      (PointCentres(n, radius, spacing, paddingLeft, paddingTop)[i]
       == PointF(radius + paddingLeft as real + i as real * (radius * 2.0 + spacing), radius + paddingTop as real))
    ensures forall i :: 0 < i < n ==>
      (PointCentres(n, radius, spacing, paddingLeft, paddingTop)[i].x
       - PointCentres(n, radius, spacing, paddingLeft, paddingTop)[i - 1].x == 2.0 * radius + spacing)
  {
    RowClosedForm(n, radius + paddingLeft as real, radius * 2.0 + spacing, radius + paddingTop as real);
  }

  /** The band test of `onTouchEvent`: strictly inside the circle's
      horizontal extent, whatever the vertical position. */
  predicate InBand(c: PointF, x: real, radius: real) {
    x > c.x - radius && x < radius + c.x
  }

  /** The indices `onTouchEvent` passes to the listener, in index order. */
  function HitIndices(cs: seq<PointF>, x: real, radius: real): seq<nat>
    decreases |cs|
  {
    if cs == [] then []
    else
      var hits := HitIndices(cs[..|cs| - 1], x, radius);
      if InBand(cs[|cs| - 1], x, radius) then hits + [|cs| - 1] else hits
  }

  /** The listener hears exactly the indices of the centres whose band holds
      the release x, each once, in increasing order. */
  lemma {:induction false} HitIndicesExact(cs: seq<PointF>, x: real, radius: real)
    ensures forall k :: 0 <= k < |HitIndices(cs, x, radius)| ==> HitIndices(cs, x, radius)[k] < |cs|
    ensures forall k: nat :: k in HitIndices(cs, x, radius) <==> k < |cs| && InBand(cs[k], x, radius)
    ensures forall i, j :: 0 <= i < j < |HitIndices(cs, x, radius)| ==> HitIndices(cs, x, radius)[i] < HitIndices(cs, x, radius)[j]
    decreases |cs|
  {
    if cs != [] {
      var init := cs[..|cs| - 1];
      HitIndicesExact(init, x, radius);
      assert forall k :: 0 <= k < |init| ==> init[k] == cs[k];
    }
  }

  /** The two-pass fill that stands for a stroked circle: the outer circle in
      the stroke colour only when the stroke is positive, then the inner
      circle, smaller by the stroke, in the fill colour. */
  function StrokedCircle(cx: real, cy: real, radius: real, stroke: real, strokeColour: Int32, fillColour: Int32): (r: seq<Circle>)
    ensures |r| == if stroke > 0.0 then 2 else 1
    ensures stroke > 0.0 ==> r[0] == Circle(cx, cy, radius, strokeColour)
    ensures r[|r| - 1] == Circle(cx, cy, radius - stroke, fillColour)
  {
    (if stroke > 0.0 then [Circle(cx, cy, radius, strokeColour)] else [])
    + [Circle(cx, cy, radius - stroke, fillColour)]
  }

  /** What `drawCircles` draws, centre by centre. */
  function TrackCircles(cs: seq<PointF>, radius: real, stroke: real, strokeColour: Int32, fillColour: Int32): seq<Circle>
    decreases |cs|
  {
    if cs == [] then []
    else
      TrackCircles(cs[..|cs| - 1], radius, stroke, strokeColour, fillColour)
      + StrokedCircle(cs[|cs| - 1].x, cs[|cs| - 1].y, radius, stroke, strokeColour, fillColour)
  }

  /** With a positive stroke every centre gets an outer and an inner circle,
      in that order; otherwise only the inner one. */
  lemma {:induction false} TrackCirclesLayout(cs: seq<PointF>, radius: real, stroke: real, strokeColour: Int32, fillColour: Int32)
    ensures stroke > 0.0 ==> |TrackCircles(cs, radius, stroke, strokeColour, fillColour)| == 2 * |cs|
    ensures stroke > 0.0 ==> forall i :: 0 <= i < |cs| ==>
      TrackCircles(cs, radius, stroke, strokeColour, fillColour)[2 * i] == Circle(cs[i].x, cs[i].y, radius, strokeColour) &&
      TrackCircles(cs, radius, stroke, strokeColour, fillColour)[2 * i + 1] == Circle(cs[i].x, cs[i].y, radius - stroke, fillColour)
    ensures stroke <= 0.0 ==> |TrackCircles(cs, radius, stroke, strokeColour, fillColour)| == |cs|
    ensures stroke <= 0.0 ==> forall i :: 0 <= i < |cs| ==>
      TrackCircles(cs, radius, stroke, strokeColour, fillColour)[i] == Circle(cs[i].x, cs[i].y, radius - stroke, fillColour)
    decreases |cs|
  {
    if cs != [] {
      var init := cs[..|cs| - 1];
      TrackCirclesLayout(init, radius, stroke, strokeColour, fillColour);
      var before := TrackCircles(init, radius, stroke, strokeColour, fillColour);
      var c := cs[|cs| - 1];
      var last := StrokedCircle(c.x, c.y, radius, stroke, strokeColour, fillColour);
      var all := TrackCircles(cs, radius, stroke, strokeColour, fillColour);
      assert all == before + last;
      if stroke > 0.0 {
        forall i | 0 <= i < |cs|
          ensures all[2 * i] == Circle(cs[i].x, cs[i].y, radius, strokeColour)
          ensures all[2 * i + 1] == Circle(cs[i].x, cs[i].y, radius - stroke, fillColour)
        {
          if i < |init| {
            assert init[i] == cs[i] && all[2 * i] == before[2 * i] && all[2 * i + 1] == before[2 * i + 1];
          } else {
            assert all[2 * i] == last[0] && all[2 * i + 1] == last[1];
          }
        }
      } else {
        forall i | 0 <= i < |cs|
          ensures all[i] == Circle(cs[i].x, cs[i].y, radius - stroke, fillColour)
        {
          if i < |init| {
            assert init[i] == cs[i] && all[i] == before[i];
          } else {
            assert all[i] == last[0];
          }
        }
      }
    }
  }

  /** What `drawIndicator` draws: nothing before the centres exist, else the
      highlight at the selected x on the centres' line, with the same
      two-pass rule and the selection's stroke and colours. */
  function HighlightCircles(count: nat, selectPointX: real, radius: real, paddingTop: Int32,
                            selectStroke: real, selectStrokeColour: Int32, selectColour: Int32): (r: seq<Circle>)
    ensures count == 0 ==> r == []
    ensures count > 0 ==> |r| == if selectStroke > 0.0 then 2 else 1
    ensures count > 0 && selectStroke > 0.0 ==> r[0] == Circle(selectPointX, radius + paddingTop as real, radius, selectStrokeColour)
    ensures count > 0 ==> r[|r| - 1] == Circle(selectPointX, radius + paddingTop as real, radius - selectStroke, selectColour)
    ensures forall k :: 0 <= k < |r| ==> r[k].cx == selectPointX && r[k].cy == radius + paddingTop as real
  {
    if count > 0 then StrokedCircle(selectPointX, radius + paddingTop as real, radius, selectStroke, selectStrokeColour, selectColour)
    else []
  }

  /** `measureWidth`, in 32-bit arithmetic. */
  function MeasureWidth(mode: MeasureMode, size: Int32, pagerCount: Int32, radius: real, spacing: real,
                        paddingLeft: Int32, paddingRight: Int32): (r: Int32)
    ensures mode == Exactly ==> r == size
    ensures mode == Reserved ==> r == 0
  {
    match mode
    case Exactly => size
    case AtMost | Unspecified =>
      var positionWidth := Mul(Mul(pagerCount, FloatToInt(radius)), 2);
      var spaceWidth := Mul(Sub(pagerCount, 1), FloatToInt(spacing));
      Add(Add(Add(paddingLeft, positionWidth), spaceWidth), paddingRight)
    case Reserved => 0
  }

  /** When nothing overflows, the wrap-around width is the padding plus a
      diameter per page plus a spacing between each pair of pages. */
  lemma MeasureWidthWithoutOverflow(mode: MeasureMode, size: Int32, pagerCount: Int32, radius: real, spacing: real,
                                    paddingLeft: Int32, paddingRight: Int32)
    requires mode == AtMost || mode == Unspecified
    requires 0 <= pagerCount && 0.0 <= radius && 0.0 <= spacing && 0 <= paddingLeft && 0 <= paddingRight
    requires spacing.Floor <= MaxInt
    requires paddingLeft + pagerCount * radius.Floor * 2 + (pagerCount - 1) * spacing.Floor + paddingRight <= MaxInt
    ensures MeasureWidth(mode, size, pagerCount, radius, spacing, paddingLeft, paddingRight)
      == paddingLeft + pagerCount * radius.Floor * 2 + (pagerCount - 1) * spacing.Floor + paddingRight
  {
    var n, t, s := pagerCount, radius.Floor, spacing.Floor;
    assert FloatToInt(spacing) == s;
    if n == 0 {
      assert Mul(Mul(n, FloatToInt(radius)), 2) == 0;
    } else {
      ProductBound(n, t);
      ProductBound(n - 1, s);
      assert FloatToInt(radius) == t;
      assert Mul(Mul(n, t), 2) == n * t * 2;
    }
    assert Mul(Sub(n, 1), FloatToInt(spacing)) == (n - 1) * s;
  }

  /** Before the first `initIndicatorCount` the page count is 0, and with the
      default radius and spacing of 10 the width term `(0 - 1) * spacing`
      makes the measured width negative. */
  lemma MeasureWidthWithNoPages(size: Int32)
    ensures MeasureWidth(AtMost, size, 0, 10.0, 10.0, 0, 0) == -10
    ensures MeasureWidth(Unspecified, size, 0, 10.0, 10.0, 0, 0) == -10
  {
    MeasureWidthWithoutOverflow(AtMost, size, 0, 10.0, 10.0, 0, 0);
    MeasureWidthWithoutOverflow(Unspecified, size, 0, 10.0, 10.0, 0, 0);
  }

  /** `measureHeight`: the diameter plus the vertical padding, converted with
      `toInt()`. */
  function MeasureHeight(mode: MeasureMode, size: Int32, radius: real, paddingTop: Int32, paddingBottom: Int32): (r: Int32)
    ensures mode == Exactly ==> r == size
    ensures mode == Reserved ==> r == 0
    ensures (mode == AtMost || mode == Unspecified) && 0.0 <= radius * 2.0 + paddingTop as real + paddingBottom as real < MaxInt as real
      ==> r as real <= radius * 2.0 + paddingTop as real + paddingBottom as real < r as real + 1.0
  {
    match mode
    case Exactly => size
    case AtMost | Unspecified => FloatToInt(radius * 2.0 + paddingTop as real + paddingBottom as real)
    case Reserved => 0
  }

  class PointIndicatorView {
    var spacing: real
    var pagerCount: Int32
    var currentIndex: Int32
    var radius: real
    var color: Int32
    var stroke: real
    var strokeColor: Int32
    var selectColor: Int32
    var selectStroke: real
    var selectStrokeColor: Int32
    var selectPointX: real
    var marginRect: Rect
    var circlePoints: seq<PointF>
    var clickEnable: bool
    var followScroll: bool
    var hasPositionClickListener: bool

    // State of the underlying View that these operations read or write.
    var visibility: Visibility
    var paddingLeft: Int32
    var paddingTop: Int32
    var paddingRight: Int32
    var paddingBottom: Int32

    /** The centre list is empty, or holds one centre per page of the last
        count above one, evenly spaced on one line. */
    ghost predicate Valid()
      reads this`circlePoints, this`pagerCount
    {
      (circlePoints == [] || (|circlePoints| == pagerCount && pagerCount > 1))
      && EvenlySpaced(circlePoints)
    }

    /** The property initialisers, then the `init` block. */
    constructor (attrs: PointAttrs, paddingLeft: Int32, paddingTop: Int32, paddingRight: Int32, paddingBottom: Int32)
      ensures Valid()
      ensures circlePoints == [] && pagerCount == 0 && currentIndex == 0 && selectPointX == 0.0
      ensures radius == attrs.radius.GetOr(10.0)
      ensures color == attrs.color.GetOr(Transparent)
      ensures selectColor == attrs.colorSelect.GetOr(Red)
      ensures stroke == attrs.stroke.GetOr(0.0)
      ensures selectStroke == attrs.strokeSelect.GetOr(0.0)
      ensures strokeColor == attrs.strokeColor.GetOr(color)
      ensures selectStrokeColor == attrs.strokeColorSelect.GetOr(selectColor)
      ensures followScroll == attrs.followScroll.GetOr(true)
      ensures marginRect == Rect(FloatToInt(attrs.marginLeft.GetOr(0.0)), FloatToInt(attrs.marginTop.GetOr(0.0)),
                                 FloatToInt(attrs.marginRight.GetOr(0.0)), FloatToInt(attrs.marginBottom.GetOr(0.0)))
      ensures spacing == attrs.space.GetOr(radius)
      ensures clickEnable == attrs.clickEnable.GetOr(false)
      ensures !hasPositionClickListener && visibility == Visible
      ensures this.paddingLeft == paddingLeft && this.paddingTop == paddingTop
      ensures this.paddingRight == paddingRight && this.paddingBottom == paddingBottom
    {
      // The init block overrides every property initialiser except these.
      pagerCount, currentIndex, selectPointX, circlePoints := 0, 0, 0.0, [];
      hasPositionClickListener, visibility := false, Visible;
      this.paddingLeft, this.paddingTop := paddingLeft, paddingTop;
      this.paddingRight, this.paddingBottom := paddingRight, paddingBottom;
      // The setters of the init block in their order, each with its default.
      var radius := attrs.radius.GetOr(10.0);
      var color := attrs.color.GetOr(Transparent);
      var selectColor := attrs.colorSelect.GetOr(Red);
      this.radius, this.color, this.selectColor := radius, color, selectColor;
      stroke, selectStroke := attrs.stroke.GetOr(0.0), attrs.strokeSelect.GetOr(0.0);
      strokeColor := attrs.strokeColor.GetOr(color);
      selectStrokeColor := attrs.strokeColorSelect.GetOr(selectColor);
      followScroll := attrs.followScroll.GetOr(true);
      marginRect := Rect(FloatToInt(attrs.marginLeft.GetOr(0.0)), FloatToInt(attrs.marginTop.GetOr(0.0)),
                         FloatToInt(attrs.marginRight.GetOr(0.0)), FloatToInt(attrs.marginBottom.GetOr(0.0)));
      spacing := attrs.space.GetOr(radius);
      clickEnable := attrs.clickEnable.GetOr(false);
    }

    /** Discards the old centres and lays out one per page when there is more
        than one page, then moves the highlight onto the current page's
        centre, which throws when the current index is not a page. */
    method InitIndicatorCount(pagerCount: Int32) returns (status: Status)
      modifies this`circlePoints, this`pagerCount, this`visibility, this`selectPointX
      ensures Valid()
      ensures this.pagerCount == pagerCount
      ensures pagerCount > 1 ==> circlePoints == PointCentres(pagerCount, radius, spacing, paddingLeft, paddingTop)
      ensures pagerCount <= 1 ==> circlePoints == [] && status == Returned && visibility == Gone && selectPointX == old(selectPointX)
      ensures pagerCount > 1 && 0 <= currentIndex < pagerCount ==>
        status == Returned && visibility == Visible && selectPointX == circlePoints[currentIndex].x
      ensures pagerCount > 1 && !(0 <= currentIndex < pagerCount) ==>
        status == Threw(IndexOutOfBounds) && visibility == old(visibility) && selectPointX == old(selectPointX)
    {
      circlePoints := [];
      this.pagerCount := pagerCount;
      if pagerCount > 1 {
        var y := radius + paddingTop as real;
        var pointCenterSpace := radius * 2.0 + spacing;
        var startX := radius + paddingLeft as real;
        var i := 0;
        while i < pagerCount
          modifies this`circlePoints
          invariant 0 <= i <= pagerCount
          invariant circlePoints == Row(i, radius + paddingLeft as real, pointCenterSpace, y)
          invariant startX == AccumulatedX(i, radius + paddingLeft as real, pointCenterSpace)
        {
          RowSnoc(i, radius + paddingLeft as real, pointCenterSpace, y);
          circlePoints := circlePoints + [PointF(startX, y)];
          startX := startX + pointCenterSpace;
          i := i + 1;
        }
        assert i == pagerCount;
        assert circlePoints == PointCentres(pagerCount, radius, spacing, paddingLeft, paddingTop);
        RowShape(pagerCount, radius + paddingLeft as real, pointCenterSpace, y);
        if 0 <= currentIndex < |circlePoints| {
          selectPointX := circlePoints[currentIndex].x;
          visibility := Visible;
          status := Returned;
        } else {
          status := Threw(IndexOutOfBounds);
        }
      } else {
        visibility := Gone;
        status := Returned;
      }
    }

    /** `setMeasuredDimension(measureWidth(..), measureHeight(..))`. */
    method OnMeasure(widthMode: MeasureMode, widthSize: Int32, heightMode: MeasureMode, heightSize: Int32)
      returns (measuredWidth: Int32, measuredHeight: Int32)
      ensures measuredWidth == MeasureWidth(widthMode, widthSize, pagerCount, radius, spacing, paddingLeft, paddingRight)
      ensures measuredHeight == MeasureHeight(heightMode, heightSize, radius, paddingTop, paddingBottom)
    {
      measuredWidth := MeasureWidth(widthMode, widthSize, pagerCount, radius, spacing, paddingLeft, paddingRight);
      measuredHeight := MeasureHeight(heightMode, heightSize, radius, paddingTop, paddingBottom);
    }

    /** The circles `drawCircles` draws, in order. */
    method DrawCircles() returns (shapes: seq<Circle>)
      ensures shapes == TrackCircles(circlePoints, radius, stroke, strokeColor, color)
    {
      shapes := [];
      var i := 0;
      while i < |circlePoints|
        invariant 0 <= i <= |circlePoints|
        invariant shapes == TrackCircles(circlePoints[..i], radius, stroke, strokeColor, color)
      {
        var pointF := circlePoints[i];
        if stroke > 0.0 {
          shapes := shapes + [Circle(pointF.x, pointF.y, radius, strokeColor)];
        }
        shapes := shapes + [Circle(pointF.x, pointF.y, radius - stroke, color)];
        assert circlePoints[..i + 1][..i] == circlePoints[..i];
        i := i + 1;
      }
      assert circlePoints[..i] == circlePoints;
    }

    /** The circles `drawIndicator` draws. */
    method DrawIndicator() returns (shapes: seq<Circle>)
      ensures shapes == HighlightCircles(|circlePoints|, selectPointX, radius, paddingTop, selectStroke, selectStrokeColor, selectColor)
    {
      shapes := [];
      if |circlePoints| > 0 {
        var indicatorPointY := radius + paddingTop as real;
        if selectStroke > 0.0 {
          shapes := shapes + [Circle(selectPointX, indicatorPointY, radius, selectStrokeColor)];
        }
        shapes := shapes + [Circle(selectPointX, indicatorPointY, radius - selectStroke, selectColor)];
      }
    }

    /** Everything `onDraw` draws: the page circles, then the highlight on
        top; nothing without a canvas. */
    method OnDraw(hasCanvas: bool) returns (shapes: seq<Circle>)
      ensures !hasCanvas ==> shapes == []
      ensures hasCanvas ==>
        shapes == TrackCircles(circlePoints, radius, stroke, strokeColor, color)
                  + HighlightCircles(|circlePoints|, selectPointX, radius, paddingTop, selectStroke, selectStrokeColor, selectColor)
    {
      shapes := [];
      if hasCanvas {
        var circles := DrawCircles();
        var indicator := DrawIndicator();
        shapes := circles + indicator;
      }
    }

    /** A release with clicking enabled calls the listener, if any, once for
        every centre whose horizontal band strictly contains the release x,
        in index order. A press is consumed; everything else is passed to the
        View's own handler, whose answer is `superConsumed`. */
    method OnTouchEvent(event: Option<MotionEvent>, superConsumed: bool) returns (r: Result<Touch>)
      ensures !clickEnable ==> r == Ok(Touch(superConsumed, []))
      ensures clickEnable && event.None? ==> r == Err(NullPointer)
      ensures clickEnable && event.Some? && event.value.action == ActionDown ==> r == Ok(Touch(true, []))
      ensures clickEnable && event.Some? && event.value.action == ActionOther ==> r == Ok(Touch(superConsumed, []))
      ensures clickEnable && event.Some? && event.value.action == ActionUp ==>
        r == Ok(Touch(superConsumed, if hasPositionClickListener then HitIndices(circlePoints, event.value.x, radius) else []))
    {
      if !clickEnable {
        return Ok(Touch(superConsumed, []));
      }
      if event.None? {
        return Err(NullPointer);
      }
      var e := event.value;
      match e.action
      case ActionDown =>
        r := Ok(Touch(true, []));
      case ActionUp =>
        var clicks: seq<nat> := [];
        if hasPositionClickListener {
          var index := 0;
          while index < |circlePoints|
            invariant 0 <= index <= |circlePoints|
            invariant clicks == HitIndices(circlePoints[..index], e.x, radius)
          {
            var pointF := circlePoints[index];
            if e.x > pointF.x - radius && e.x < radius + pointF.x {
              clicks := clicks + [index];
            }
            assert circlePoints[..index + 1][..index] == circlePoints[..index];
            index := index + 1;
          }
          assert circlePoints[..index] == circlePoints;
        }
        r := Ok(Touch(superConsumed, clicks));
      case ActionOther =>
        r := Ok(Touch(superConsumed, []));
    }

    /** Follow-scroll mode moves the highlight to the interpolation between
        the clamped current and next centres; nothing happens with no
        centres or with follow-scroll off. On a laid-out row (one centre per
        page) a position in [0, Int.MAX_VALUE) never throws. */
    method OnPageScrolled(position: Int32, positionOffset: real, positionOffsetPixels: Int32) returns (status: Status)
      modifies this`selectPointX
      ensures circlePoints == [] || !followScroll ==> status == Returned && selectPointX == old(selectPointX)
      ensures circlePoints != [] && followScroll ==>
        match ScrollTarget(circlePoints, pagerCount, position, positionOffset)
        case Ok(x) => status == Returned && selectPointX == x
        case Err(e) => status == Threw(e) && selectPointX == old(selectPointX)
      ensures Valid() && circlePoints != [] && followScroll && 0 <= position < MaxInt ==> status == Returned
      ensures Valid() && followScroll && 0 <= position < |circlePoints| ==>
        selectPointX == Lerp(circlePoints[position].x, circlePoints[(position + 1) % |circlePoints|].x, positionOffset)
    {
      status := Returned;
      if circlePoints == [] {
        return;
      }
      if followScroll {
        match ScrollTarget(circlePoints, pagerCount, position, positionOffset)
        case Ok(x) =>
          selectPointX := x;
        case Err(e) =>
          status := Threw(e);
      }
    }

    /** With follow-scroll off, records the page as current and snaps the
        highlight onto its centre; the index is not checked, so a page
        outside the list throws after `currentIndex` has been set. */
    method OnPageSelected(position: Int32) returns (status: Status)
      modifies this`currentIndex, this`selectPointX
      ensures followScroll ==> status == Returned && currentIndex == old(currentIndex) && selectPointX == old(selectPointX)
      ensures !followScroll ==> currentIndex == position
      ensures !followScroll && 0 <= position < |circlePoints| ==>
        status == Returned && selectPointX == circlePoints[position].x
      ensures !followScroll && !(0 <= position < |circlePoints|) ==>
        status == Threw(IndexOutOfBounds) && selectPointX == old(selectPointX)
    {
      status := Returned;
      if !followScroll {
        currentIndex := position;
        if 0 <= currentIndex < |circlePoints| {
          selectPointX := circlePoints[currentIndex].x;
        } else {
          status := Threw(IndexOutOfBounds);
        }
      }
    }

    /** `seRadius` in the source. */
    method SetRadius(radius: real)
      modifies this`radius
      ensures this.radius == radius
    {
      this.radius := radius;
    }

    method SetFullColor(color: Int32)
      modifies this`color
      ensures this.color == color
    {
      this.color := color;
    }

    method SetStroke(stroke: real)
      modifies this`stroke
      ensures this.stroke == stroke
    {
      this.stroke := stroke;
    }

    method SetStrokeColor(color: Int32)
      modifies this`strokeColor
      ensures strokeColor == color
    {
      strokeColor := color;
    }

    method SetFullSelectColor(color: Int32)
      modifies this`selectColor
      ensures selectColor == color
    {
      selectColor := color;
    }

    method SetSelectStroke(stroke: real)
      modifies this`selectStroke
      ensures selectStroke == stroke
    {
      selectStroke := stroke;
    }

    method SetSelectStrokeColor(color: Int32)
      modifies this`selectStrokeColor
      ensures selectStrokeColor == color
    {
      selectStrokeColor := color;
    }

    method SetSpace(space: real)
      modifies this`spacing
      ensures spacing == space
    {
      spacing := space;
    }

    method SetFollowScroll(followScroll: bool)
      modifies this`followScroll
      ensures this.followScroll == followScroll
    {
      this.followScroll := followScroll;
    }

    method SetClickEnable(enable: bool)
      modifies this`clickEnable
      ensures clickEnable == enable
    {
      clickEnable := enable;
    }

    /** Registers a listener and turns clicking on. */
    method SetPositionClickListener()
      modifies this`clickEnable, this`hasPositionClickListener
      ensures clickEnable && hasPositionClickListener
    {
      clickEnable := true;
      hasPositionClickListener := true;
    }

    method SetMarginLeft(left: Int32)
      modifies this`marginRect
      ensures marginRect == old(marginRect).(left := left)
    {
      marginRect := marginRect.(left := left);
    }

    method SetMarginTop(top: Int32)
      modifies this`marginRect
      ensures marginRect == old(marginRect).(top := top)
    {
      marginRect := marginRect.(top := top);
    }

    method SetMarginRight(right: Int32)
      modifies this`marginRect
      ensures marginRect == old(marginRect).(right := right)
    {
      marginRect := marginRect.(right := right);
    }

    method SetMarginBottom(bottom: Int32)
      modifies this`marginRect
      ensures marginRect == old(marginRect).(bottom := bottom)
    {
      marginRect := marginRect.(bottom := bottom);
    }
  }

  /** Re-initialising with the same count rebuilds the same centres. */
  method InitTwice(v: PointIndicatorView, pagerCount: Int32) returns (first: seq<PointF>)
    modifies v
    ensures v.circlePoints == first
    ensures |first| == if pagerCount > 1 then pagerCount else 0
  {
    var _ := v.InitIndicatorCount(pagerCount);
    first := v.circlePoints;
    var _ := v.InitIndicatorCount(pagerCount);
  }

  /** A scroll after laying out more than one page, at any position below
      Int.MAX_VALUE, returns normally. */
  method InitThenScroll(v: PointIndicatorView, pagerCount: Int32, position: Int32, offset: real) returns (status: Status)
    requires 1 < pagerCount && 0 <= position < MaxInt
    modifies v
    ensures v.followScroll ==> status == Returned
  {
    var _ := v.InitIndicatorCount(pagerCount);
    status := v.OnPageScrolled(position, offset, 0);
  }

  /** One page, then five: no centre of the first call survives the second. */
  method OneThenFive(v: PointIndicatorView)
    modifies v
    ensures |v.circlePoints| == 5 && v.pagerCount == 5
  {
    var _ := v.InitIndicatorCount(1);
    var _ := v.InitIndicatorCount(5);
  }

  /** Four pages of radius 10 with no spacing and no padding have centres
      at x = 10, 30, 50, 70, and a release at x = 32 hits page 1 only. */
  lemma TapScenario()
    ensures PointCentres(4, 10.0, 0.0, 0, 0)
      == [PointF(10.0, 10.0), PointF(30.0, 10.0), PointF(50.0, 10.0), PointF(70.0, 10.0)]
    ensures HitIndices(PointCentres(4, 10.0, 0.0, 0, 0), 32.0, 10.0) == [1]
  {
    var cs := PointCentres(4, 10.0, 0.0, 0, 0);
    PointCentresClosedForm(4, 10.0, 0.0, 0, 0);
    assert cs[1] == PointF(30.0, 10.0) && cs[2] == PointF(50.0, 10.0) && cs[3] == PointF(70.0, 10.0);
    HitsOfFour(cs, 32.0, 10.0);
  }

  /** With a spacing of 10 the same four centres sit at x = 10, 40, 70, 100,
      and a release at x = 32 still hits page 1 only. */
  lemma TapScenarioWithSpacing()
    ensures PointCentres(4, 10.0, 10.0, 0, 0)
      == [PointF(10.0, 10.0), PointF(40.0, 10.0), PointF(70.0, 10.0), PointF(100.0, 10.0)]
    ensures HitIndices(PointCentres(4, 10.0, 10.0, 0, 0), 32.0, 10.0) == [1]
  {
    var cs := PointCentres(4, 10.0, 10.0, 0, 0);
    PointCentresClosedForm(4, 10.0, 10.0, 0, 0);
    assert cs[1] == PointF(40.0, 10.0) && cs[2] == PointF(70.0, 10.0) && cs[3] == PointF(100.0, 10.0);
    HitsOfFour(cs, 32.0, 10.0);
  }

  /** The hit list of four centres, spelled out. */
  lemma HitsOfFour(cs: seq<PointF>, x: real, radius: real)
    requires |cs| == 4
    ensures HitIndices(cs, x, radius)
      == (if InBand(cs[0], x, radius) then [0] else []) + (if InBand(cs[1], x, radius) then [1] else [])
       + (if InBand(cs[2], x, radius) then [2] else []) + (if InBand(cs[3], x, radius) then [3] else [])
  {
    var b0 := if InBand(cs[0], x, radius) then [0] else [];
    var b1 := if InBand(cs[1], x, radius) then [1] else [];
    var b2 := if InBand(cs[2], x, radius) then [2] else [];
    var b3 := if InBand(cs[3], x, radius) then [3] else [];
    assert cs[..1][..0] == [] && cs[..1][0] == cs[0];
    assert HitIndices(cs[..1], x, radius) == b0;
    assert cs[..2][..1] == cs[..1] && cs[..2][1] == cs[1];
    assert HitIndices(cs[..2], x, radius) == b0 + b1;
    assert cs[..3][..2] == cs[..2] && cs[..3][2] == cs[2];
    assert HitIndices(cs[..3], x, radius) == b0 + b1 + b2;
    assert cs[..3] == cs[..|cs| - 1];
  }
}
