/** The line-style page indicator (LineIndicatorView): a row of rounded
    bars, one per page, and a highlight bar that follows the pager. */
module LineIndicator {
  import opened KotlinInt
  import opened Indicator

  /** android.graphics.RectF: the margins, and the bounds of a bar. */
  datatype RectF = RectF(left: real, top: real, right: real, bottom: real)

  /** One `canvas.drawRoundRect` call: bounds, corner radii and paint colour. */
  datatype RoundRect = RoundRect(bounds: RectF, rx: real, ry: real, colour: Int32)

  /** The styled attributes `init` reads; `None` is an attribute that the
      layout does not set, for which `init` takes its default. */
  datatype LineAttrs = LineAttrs(
    roundRadius: Option<real>,
    color: Option<Int32>,
    colorSelect: Option<Int32>,
    lineWidth: Option<real>,
    lineWidthSelect: Option<real>,
    lineHeight: Option<real>,
    followScroll: Option<bool>,
    space: Option<real>,
    margin: Option<real>,
    marginLeft: Option<real>,
    marginTop: Option<real>,
    marginRight: Option<real>,
    marginBottom: Option<real>)

  /** The centres `initIndicatorCount` lays out for `n` pages: each bar gets
      a slot as wide as the wider of the two bars, slots are `space` apart,
      and every centre sits half a bar height below the top padding. */
  function LineCentres(n: nat, lineWidth: real, lineWidthSelect: real, lineHeight: real, space: real,
                       paddingLeft: int, paddingTop: int): seq<PointF> {
    var slot := Max(lineWidth, lineWidthSelect);
    Row(n, slot / 2.0 + paddingLeft as real, slot + space, lineHeight / 2.0 + paddingTop as real)
  }

  /** The layout in closed form: centre `i` at
      max(w, ws) / 2 + paddingLeft + i * (max(w, ws) + space), on the line
      lineHeight / 2 + paddingTop. */
  lemma LineCentresClosedForm(n: nat, lineWidth: real, lineWidthSelect: real, lineHeight: real, space: real,
                              paddingLeft: int, paddingTop: int)
    ensures |LineCentres(n, lineWidth, lineWidthSelect, lineHeight, space, paddingLeft, paddingTop)| == n
    ensures forall i :: 0 <= i < n ==>
      (LineCentres(n, lineWidth, lineWidthSelect, lineHeight, space, paddingLeft, paddingTop)[i]
       == PointF(Max(lineWidth, lineWidthSelect) / 2.0 + paddingLeft as real
                   + i as real * (Max(lineWidth, lineWidthSelect) + space),
                 lineHeight / 2.0 + paddingTop as real))
  {
    var slot := Max(lineWidth, lineWidthSelect);
    RowClosedForm(n, slot / 2.0 + paddingLeft as real, slot + space, lineHeight / 2.0 + paddingTop as real);
  }

  /** The bounds `drawLines` gives the bar around one centre. */
  function TrackBounds(c: PointF, lineWidth: real, lineHeight: real): RectF {
    RectF(c.x - lineWidth / 2.0, c.y - lineHeight / 2.0, c.x + lineWidth / 2.0, c.y + lineHeight / 2.0)
  }

  /** What `drawLines` draws: one bar per centre, in list order, always in
      Color.GRAY. */
  function TrackBars(cs: seq<PointF>, lineWidth: real, lineHeight: real, roundRadius: real): (r: seq<RoundRect>)
    ensures |r| == |cs|
  {
    seq(|cs|, i requires 0 <= i < |cs| => RoundRect(TrackBounds(cs[i], lineWidth, lineHeight), roundRadius, roundRadius, Gray))
  }

  /** The bounds `drawIndicator` gives the highlight bar. */
  function HighlightBounds(selectLineCenterX: real, lineWidthSelect: real, lineHeight: real, paddingTop: int): RectF {
    RectF(selectLineCenterX - lineWidthSelect / 2.0, paddingTop as real,
          selectLineCenterX + lineWidthSelect / 2.0, paddingTop as real + lineHeight)
  }

  /** On a laid-out row every bar and the highlight share one vertical band,
      from the top padding down by the bar height. */
  lemma BarsShareBand(n: nat, lineWidth: real, lineWidthSelect: real, lineHeight: real, space: real,
                      paddingLeft: int, paddingTop: int, roundRadius: real, selectLineCenterX: real)
    ensures var bars := TrackBars(LineCentres(n, lineWidth, lineWidthSelect, lineHeight, space, paddingLeft, paddingTop),
                                  lineWidth, lineHeight, roundRadius);
      forall i :: 0 <= i < |bars| ==>
        bars[i].bounds.top == paddingTop as real && bars[i].bounds.bottom == paddingTop as real + lineHeight
    ensures HighlightBounds(selectLineCenterX, lineWidthSelect, lineHeight, paddingTop).top == paddingTop as real
    ensures HighlightBounds(selectLineCenterX, lineWidthSelect, lineHeight, paddingTop).bottom == paddingTop as real + lineHeight
  {
    var slot := Max(lineWidth, lineWidthSelect);
    RowShape(n, slot / 2.0 + paddingLeft as real, slot + space, lineHeight / 2.0 + paddingTop as real);
  }

  /** With a non-negative space the bars of a laid-out row do not overlap,
      and neither would highlights resting on two adjacent centres. */
  lemma BarsDoNotOverlap(n: nat, lineWidth: real, lineWidthSelect: real, lineHeight: real, space: real,
                         paddingLeft: int, paddingTop: int, roundRadius: real)
    requires 0.0 <= space
    ensures var cs := LineCentres(n, lineWidth, lineWidthSelect, lineHeight, space, paddingLeft, paddingTop);
      var bars := TrackBars(cs, lineWidth, lineHeight, roundRadius);
      forall i :: 0 < i < |bars| ==> bars[i - 1].bounds.right <= bars[i].bounds.left
    ensures var cs := LineCentres(n, lineWidth, lineWidthSelect, lineHeight, space, paddingLeft, paddingTop);
      forall i :: 0 < i < |cs| ==> cs[i - 1].x + lineWidthSelect / 2.0 <= cs[i].x - lineWidthSelect / 2.0
  {
    var slot := Max(lineWidth, lineWidthSelect);
    RowShape(n, slot / 2.0 + paddingLeft as real, slot + space, lineHeight / 2.0 + paddingTop as real);
  }

  /** `measureWidth`, in 32-bit arithmetic. */
  function MeasureWidth(mode: MeasureMode, size: Int32, pagerCount: Int32, lineWidth: real, lineWidthSelect: real,
                        space: real, paddingLeft: Int32, paddingRight: Int32): (r: Int32)
    ensures mode == Exactly ==> r == size
    ensures mode == Reserved ==> r == 0
  {
    match mode
    case Exactly => size
    case AtMost | Unspecified =>
      var maxWidth := FloatToInt(Max(lineWidth, lineWidthSelect));
      var spaceSize := Mul(Sub(pagerCount, 1), FloatToInt(space));
      Add(Add(Add(paddingLeft, Mul(pagerCount, maxWidth)), spaceSize), paddingRight)
    case Reserved => 0
  }

  /** When nothing overflows, the wrap-around width is the padding plus one
      slot per page plus a space between each pair of pages. */
  lemma MeasureWidthWithoutOverflow(mode: MeasureMode, size: Int32, pagerCount: Int32, lineWidth: real,
                                    lineWidthSelect: real, space: real, paddingLeft: Int32, paddingRight: Int32)
    requires mode == AtMost || mode == Unspecified
    requires 0 <= pagerCount && 0.0 <= lineWidth && 0.0 <= lineWidthSelect && 0.0 <= space
    requires 0 <= paddingLeft && 0 <= paddingRight && space.Floor <= MaxInt
    requires paddingLeft + pagerCount * Max(lineWidth, lineWidthSelect).Floor + (pagerCount - 1) * space.Floor
             + paddingRight <= MaxInt
    ensures MeasureWidth(mode, size, pagerCount, lineWidth, lineWidthSelect, space, paddingLeft, paddingRight)
      == paddingLeft + pagerCount * Max(lineWidth, lineWidthSelect).Floor + (pagerCount - 1) * space.Floor + paddingRight
  {
    var n, w, s := pagerCount, Max(lineWidth, lineWidthSelect).Floor, space.Floor;
    assert FloatToInt(space) == s;
    if n == 0 {
      assert Mul(n, FloatToInt(Max(lineWidth, lineWidthSelect))) == 0;
    } else {
      ProductBound(n, w);
      ProductBound(n - 1, s);
      assert FloatToInt(Max(lineWidth, lineWidthSelect)) == w;
      assert Mul(n, w) == n * w;
    }
    assert Mul(Sub(n, 1), FloatToInt(space)) == (n - 1) * s;
  }

  /** `measureHeight`: the vertical padding plus the truncated bar height. */
  function MeasureHeight(mode: MeasureMode, size: Int32, lineHeight: real, paddingTop: Int32, paddingBottom: Int32): (r: Int32)
    ensures mode == Exactly ==> r == size
    ensures mode == Reserved ==> r == 0
  {
    match mode
    case Exactly => size
    case AtMost | Unspecified => Add(Add(paddingTop, paddingBottom), FloatToInt(lineHeight))
    case Reserved => 0
  }

  /** When nothing overflows, the height is the padding plus the whole
      pixels of the bar height. */
  lemma MeasureHeightWithoutOverflow(mode: MeasureMode, size: Int32, lineHeight: real, paddingTop: Int32, paddingBottom: Int32)
    requires mode == AtMost || mode == Unspecified
    requires 0.0 <= lineHeight && 0 <= paddingTop && 0 <= paddingBottom
    requires paddingTop + paddingBottom + lineHeight.Floor <= MaxInt
    ensures MeasureHeight(mode, size, lineHeight, paddingTop, paddingBottom) == paddingTop + paddingBottom + lineHeight.Floor
  {
    if MaxInt as real <= lineHeight {
      assert MaxInt <= lineHeight.Floor;
    }
  }

  class LineIndicatorView {
    var pagerCount: Int32
    var roundRadius: real
    var space: real
    var color: Int32
    var colorSelect: Int32
    var lineWidth: real
    var lineWidthSelect: real
    var lineHeight: real
    var centerPointF: seq<PointF>
    var selectLineCenterX: real
    var followScroll: bool
    var marginRect: RectF

    // State of the underlying View that these operations read or write.
    var visibility: Visibility
    var paddingLeft: Int32
    var paddingTop: Int32
    var paddingRight: Int32
    var paddingBottom: Int32

    /** The centre list is empty, or holds one centre per page of the last
        count above one, evenly spaced on one line. */
    ghost predicate Valid()
      reads this`centerPointF, this`pagerCount
    {
      (centerPointF == [] || (|centerPointF| == pagerCount && pagerCount > 1))
      && EvenlySpaced(centerPointF)
    }

    /** The property initialisers, then the `init` block. */
    constructor (attrs: LineAttrs, paddingLeft: Int32, paddingTop: Int32, paddingRight: Int32, paddingBottom: Int32)
      ensures Valid()
      ensures centerPointF == [] && pagerCount == 0 && selectLineCenterX == 0.0 && visibility == Visible
      ensures roundRadius == attrs.roundRadius.GetOr(10.0)
      ensures color == attrs.color.GetOr(Gray)
      ensures colorSelect == attrs.colorSelect.GetOr(Red)
      ensures lineWidth == attrs.lineWidth.GetOr(90.0)
      ensures lineWidthSelect == attrs.lineWidthSelect.GetOr(lineWidth)
      ensures lineHeight == attrs.lineHeight.GetOr(20.0)
      ensures followScroll == attrs.followScroll.GetOr(true)
      ensures space == attrs.space.GetOr(0.0)
      ensures var m := attrs.margin.GetOr(0.0);
        marginRect == RectF(attrs.marginLeft.GetOr(m), attrs.marginTop.GetOr(m),
                            attrs.marginRight.GetOr(m), attrs.marginBottom.GetOr(m))
      ensures this.paddingLeft == paddingLeft && this.paddingTop == paddingTop
      ensures this.paddingRight == paddingRight && this.paddingBottom == paddingBottom
    {
      // The init block overrides every property initialiser except these.
      pagerCount, centerPointF, selectLineCenterX, visibility := 0, [], 0.0, Visible;
      this.paddingLeft, this.paddingTop := paddingLeft, paddingTop;
      this.paddingRight, this.paddingBottom := paddingRight, paddingBottom;
      // The setters of the init block in their order, each with its default.
      roundRadius := attrs.roundRadius.GetOr(10.0);
      color, colorSelect := attrs.color.GetOr(Gray), attrs.colorSelect.GetOr(Red);
      var lineWidth := attrs.lineWidth.GetOr(90.0);
      this.lineWidth := lineWidth;
      lineWidthSelect := attrs.lineWidthSelect.GetOr(lineWidth);
      lineHeight := attrs.lineHeight.GetOr(20.0);
      followScroll := attrs.followScroll.GetOr(true);
      space := attrs.space.GetOr(0.0);
      var margin := attrs.margin.GetOr(0.0);
      marginRect := RectF(attrs.marginLeft.GetOr(margin), attrs.marginTop.GetOr(margin),
                          attrs.marginRight.GetOr(margin), attrs.marginBottom.GetOr(margin));
    }

    /** Discards the old centres and lays out one per page when there is more
        than one page, then puts the highlight on the first centre; one page
        or none hides the view and keeps the highlight where it was. */
    method InitIndicatorCount(pagerCount: Int32)
      modifies this`centerPointF, this`pagerCount, this`visibility, this`selectLineCenterX
      ensures Valid()
      ensures this.pagerCount == pagerCount
      ensures pagerCount > 1 ==>
        centerPointF == LineCentres(pagerCount, lineWidth, lineWidthSelect, lineHeight, space, paddingLeft, paddingTop)
        && visibility == Visible
        && selectLineCenterX == centerPointF[0].x == Max(lineWidth, lineWidthSelect) / 2.0 + paddingLeft as real
      ensures pagerCount <= 1 ==>
        centerPointF == [] && visibility == Gone && selectLineCenterX == old(selectLineCenterX)
    {
      centerPointF := [];
      this.pagerCount := pagerCount;
      if pagerCount > 1 {
        var centerY := lineHeight / 2.0 + paddingTop as real;
        var firstX := Max(lineWidth, lineWidthSelect) / 2.0 + paddingLeft as real;
        var centerSpace := Max(lineWidth, lineWidthSelect) + space;
        var startX := firstX;
        var i := 0;
        while i < pagerCount
          modifies this`centerPointF
          invariant 0 <= i <= pagerCount
          invariant centerPointF == Row(i, firstX, centerSpace, centerY)
          invariant startX == AccumulatedX(i, firstX, centerSpace)
        {
          RowSnoc(i, firstX, centerSpace, centerY);
          centerPointF := centerPointF + [PointF(startX, centerY)];
          startX := startX + centerSpace;
          i := i + 1;
        }
        assert centerPointF == LineCentres(pagerCount, lineWidth, lineWidthSelect, lineHeight, space, paddingLeft, paddingTop);
        RowShape(pagerCount, firstX, centerSpace, centerY);
        selectLineCenterX := centerPointF[0].x;
        visibility := Visible;
      } else {
        visibility := Gone;
      }
    }

    /** `setMeasuredDimension(measureWidth(..), measureHeight(..))`. */
    method OnMeasure(widthMode: MeasureMode, widthSize: Int32, heightMode: MeasureMode, heightSize: Int32)
      returns (measuredWidth: Int32, measuredHeight: Int32)
      ensures measuredWidth == MeasureWidth(widthMode, widthSize, pagerCount, lineWidth, lineWidthSelect, space, paddingLeft, paddingRight)
      ensures measuredHeight == MeasureHeight(heightMode, heightSize, lineHeight, paddingTop, paddingBottom)
    {
      measuredWidth := MeasureWidth(widthMode, widthSize, pagerCount, lineWidth, lineWidthSelect, space, paddingLeft, paddingRight);
      measuredHeight := MeasureHeight(heightMode, heightSize, lineHeight, paddingTop, paddingBottom);
    }

    /** The bars `drawLines` draws: one Color.GRAY bar per centre, in order,
        `lineWidth` wide and `lineHeight` high around the centre. */
    method DrawLines() returns (shapes: seq<RoundRect>)
      ensures |shapes| == |centerPointF|
      ensures forall i :: 0 <= i < |shapes| ==>
        shapes[i] == RoundRect(TrackBounds(centerPointF[i], lineWidth, lineHeight), roundRadius, roundRadius, Gray)
    {
      shapes := [];
      var i := 0;
      while i < |centerPointF|
        invariant 0 <= i <= |centerPointF|
        invariant |shapes| == i
        invariant forall k :: 0 <= k < i ==>
          shapes[k] == RoundRect(TrackBounds(centerPointF[k], lineWidth, lineHeight), roundRadius, roundRadius, Gray)
      {
        var it := centerPointF[i];
        var rectF := RectF(it.x - lineWidth / 2.0, it.y - lineHeight / 2.0, it.x + lineWidth / 2.0, it.y + lineHeight / 2.0);
        shapes := shapes + [RoundRect(rectF, roundRadius, roundRadius, Gray)];
        i := i + 1;
      }
    }

    /** The bar `drawIndicator` draws: Color.RED, `lineWidthSelect` wide
        around the highlight x. */
    method DrawIndicator() returns (shape: RoundRect)
      ensures shape == RoundRect(HighlightBounds(selectLineCenterX, lineWidthSelect, lineHeight, paddingTop),
                                 roundRadius, roundRadius, Red)
    {
      var rectF := RectF(selectLineCenterX - lineWidthSelect / 2.0, paddingTop as real,
                         selectLineCenterX + lineWidthSelect / 2.0, paddingTop as real + lineHeight);
      shape := RoundRect(rectF, roundRadius, roundRadius, Red);
    }

    /** Everything `onDraw` draws: nothing with no centres or no canvas,
        otherwise the bars and then the highlight on top; the colours are
        GRAY and RED whatever `color` and `colorSelect` hold. */
    method OnDraw(hasCanvas: bool) returns (shapes: seq<RoundRect>)
      ensures centerPointF == [] || !hasCanvas ==> shapes == []
      ensures centerPointF != [] && hasCanvas ==>
        shapes == TrackBars(centerPointF, lineWidth, lineHeight, roundRadius)
                  + [RoundRect(HighlightBounds(selectLineCenterX, lineWidthSelect, lineHeight, paddingTop),
                               roundRadius, roundRadius, Red)]
      ensures forall k :: 0 <= k < |shapes| ==> shapes[k].colour == if k < |centerPointF| then Gray else Red
    {
      shapes := [];
      if |centerPointF| <= 0 {
        return;
      }
      if hasCanvas {
        var lines := DrawLines();
        var indicator := DrawIndicator();
        assert lines == TrackBars(centerPointF, lineWidth, lineHeight, roundRadius);
        shapes := lines + [indicator];
      }
    }

    /** Follow-scroll mode moves the highlight to the interpolation between
        the clamped current and next centres; nothing happens with no
        centres or with follow-scroll off. On a laid-out row (one centre per
        page) a position in [0, Int.MAX_VALUE) never throws. */
    method OnPageScrolled(position: Int32, positionOffset: real, positionOffsetPixels: Int32) returns (status: Status)
      modifies this`selectLineCenterX
      ensures centerPointF == [] || !followScroll ==> status == Returned && selectLineCenterX == old(selectLineCenterX)
      ensures centerPointF != [] && followScroll ==>
        match ScrollTarget(centerPointF, pagerCount, position, positionOffset)
        case Ok(x) => status == Returned && selectLineCenterX == x
        case Err(e) => status == Threw(e) && selectLineCenterX == old(selectLineCenterX)
      ensures Valid() && centerPointF != [] && followScroll && 0 <= position < MaxInt ==> status == Returned
      ensures Valid() && followScroll && 0 <= position < |centerPointF| ==>
        selectLineCenterX == Lerp(centerPointF[position].x, centerPointF[(position + 1) % |centerPointF|].x, positionOffset)
    {
      status := Returned;
      if centerPointF == [] {
        return;
      }
      if followScroll {
        match ScrollTarget(centerPointF, pagerCount, position, positionOffset)
        case Ok(x) =>
          selectLineCenterX := x;
        case Err(e) =>
          status := Threw(e);
      }
    }

    /** With follow-scroll off, snaps the highlight onto the page's centre;
        the index is not checked, so a page outside the list throws. */
    method OnPageSelected(position: Int32) returns (status: Status)
      modifies this`selectLineCenterX
      ensures followScroll ==> status == Returned && selectLineCenterX == old(selectLineCenterX)
      ensures !followScroll && 0 <= position < |centerPointF| ==>
        status == Returned && selectLineCenterX == centerPointF[position].x
      ensures !followScroll && !(0 <= position < |centerPointF|) ==>
        status == Threw(IndexOutOfBounds) && selectLineCenterX == old(selectLineCenterX)
    {
      status := Returned;
      if !followScroll {
        if 0 <= position < |centerPointF| {
          selectLineCenterX := centerPointF[position].x;
        } else {
          status := Threw(IndexOutOfBounds);
        }
      }
    }

    method SetRoundRadius(radius: real)
      modifies this`roundRadius
      ensures roundRadius == radius
    {
      roundRadius := radius;
    }

    method SetColor(color: Int32)
      modifies this`color
      ensures this.color == color
    {
      this.color := color;
    }

    method SetColorSelect(color: Int32)
      modifies this`colorSelect
      ensures colorSelect == color
    {
      colorSelect := color;
    }

    method SetWidth(width: real)
      modifies this`lineWidth
      ensures lineWidth == width
    {
      lineWidth := width;
    }

    method SetWidthSelect(width: real)
      modifies this`lineWidthSelect
      ensures lineWidthSelect == width
    {
      lineWidthSelect := width;
    }

    method SetHeight(height: real)
      modifies this`lineHeight
      ensures lineHeight == height
    {
      lineHeight := height;
    }

    method SetFollowScroll(enable: bool)
      modifies this`followScroll
      ensures followScroll == enable
    {
      followScroll := enable;
    }

    /** All four margins at once. */
    method SetMargin(margin: real)
      modifies this`marginRect
      ensures marginRect == RectF(margin, margin, margin, margin)
    {
      marginRect := RectF(margin, margin, margin, margin);
    }

    method SetSpace(space: real)
      modifies this`space
      ensures this.space == space
    {
      this.space := space;
    }

    method SetMarginLeft(left: real)
      modifies this`marginRect
      ensures marginRect == old(marginRect).(left := left)
    {
      marginRect := marginRect.(left := left);
    }

    method SetMarginTop(top: real)
      modifies this`marginRect
      ensures marginRect == old(marginRect).(top := top)
    {
      marginRect := marginRect.(top := top);
    }

    method SetMarginRight(right: real)
      modifies this`marginRect
      ensures marginRect == old(marginRect).(right := right)
    {
      marginRect := marginRect.(right := right);
    }

    method SetMarginBottom(bottom: real)
      modifies this`marginRect
      ensures marginRect == old(marginRect).(bottom := bottom)
    {
      marginRect := marginRect.(bottom := bottom);
    }
  }

  /** Three pages of 90-pixel bars with no space and no padding have centres
      at x = 45, 135, 225, and halfway from page 0 to page 1 the highlight
      is at x = 90. */
  lemma ScrollScenario()
    ensures LineCentres(3, 90.0, 90.0, 20.0, 0.0, 0, 0)
      == [PointF(45.0, 10.0), PointF(135.0, 10.0), PointF(225.0, 10.0)]
    ensures ScrollTarget(LineCentres(3, 90.0, 90.0, 20.0, 0.0, 0, 0), 3, 0, 0.5) == Ok(90.0)
  {
    var cs := LineCentres(3, 90.0, 90.0, 20.0, 0.0, 0, 0);
    LineCentresClosedForm(3, 90.0, 90.0, 20.0, 0.0, 0, 0);
    assert cs[0] == PointF(45.0, 10.0) && cs[1] == PointF(135.0, 10.0) && cs[2] == PointF(225.0, 10.0);
  }
}
