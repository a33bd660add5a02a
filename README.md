# Page indicators: geometry and selection

This project models the two page-indicator views of the `libIndicator`
Android library: `PointIndicatorView`, a row of circles, and
`LineIndicatorView`, a row of rounded bars. Each view has one shape per
page of a pager and a highlight shape that follows the pager as it scrolls.
The model covers:

- how the views lay out their shape centres;
- how they move the highlight on scroll and on page selection;
- which pages a tap on a circle selects;
- how they size themselves;
- what they draw.

The model has four modules:

- `KotlinInt` (`kotlin_int.dfy`) gives Kotlin's 32-bit `Int`. It has two's-complement wrap-around for `+`, `-` and `*`, the truncating `%`, and the saturating `Float.toInt()`.
- `Indicator` (`indicator.dfy`) holds what both views share:
  - the value types;
  - the exceptions that unguarded list indexing raises;
  - the arithmetic progression that both layout loops build;
  - the clamped-index interpolation that both `onPageScrolled` methods perform.
- `PointIndicator` (`point_indicator.dfy`) is the point view. The class `PointIndicatorView` has the view's fields, and its methods change them as the Kotlin methods do.
- `LineIndicator` (`line_indicator.dfy`) is the line view, with the class `LineIndicatorView`.

Modelling choices:

- **Pixel sizes.** `Float` pixel sizes are `real`.
- **Kotlin `Int`.** `Int` values are the subset type `Int32`. Wrap-around is written out wherever the source computes in `Int`.
- **Exceptions.** A call that throws (`IndexOutOfBoundsException` from `list[i]`, `NullPointerException` from `event!!`, `ArithmeticException` from `% 0`) returns `Threw(..)` or `Err(..)`. It leaves the fields exactly as the Kotlin code leaves them at the throw. For example, the point view's `onPageSelected` has already stored the new `currentIndex` when the lookup fails.
- **Drawing.** A draw returns the sequence of `drawCircle` or `drawRoundRect` calls it makes, in order.
- **Touch.** `onTouchEvent` returns the indices it passes to `positionClick`, in call order. The answer of the View's own `onTouchEvent` is a parameter.
- **Framework state passed in.** The widths and modes from `MeasureSpec` are parameters. Whether a canvas is present is a parameter. The styled attributes are `Option` values: `None` stands for an attribute the layout does not set. The View's padding is set by the constructor.

The code puts adjacent circle centres `2 * radius + spacing` apart. Two scenario lemmas pin this down for four circles of radius 10 and no padding:

- `TapScenario`: with spacing 0 the centres are at x = 10, 30, 50, 70.
- `TapScenarioWithSpacing`: with spacing 10 they are at x = 10, 40, 70, 100.
- In both layouts a release at x = 32 hits page 1 only.

## Model

| member | source | states |
|---|---|---|
| KotlinInt.Add | libIndicator/src/main/java/com/pretty/library/indicator/PointIndicatorView.kt:163 | Kotlin `Int` addition: the exact sum when it fits, otherwise the sum wrapped by 2^32 in the direction of the overflow |
| KotlinInt.Mul | libIndicator/src/main/java/com/pretty/library/indicator/PointIndicatorView.kt:161-162 | Kotlin `Int` multiplication: the exact product when it fits, and always congruent to it modulo 2^32 |
| KotlinInt.Rem | libIndicator/src/main/java/com/pretty/library/indicator/PointIndicatorView.kt:133 | Kotlin `%`: takes the sign of the dividend, its magnitude is the remainder of the magnitudes |
| KotlinInt.RemNonNegative | libIndicator/src/main/java/com/pretty/library/indicator/PointIndicatorView.kt:133 | for a non-negative dividend and positive divisor Kotlin's `%` is the mathematical remainder |
| KotlinInt.FloatToInt | libIndicator/src/main/java/com/pretty/library/indicator/PointIndicatorView.kt:161-162 | `Float.toInt()`: saturates at `Int.MIN_VALUE`/`Int.MAX_VALUE`, truncates toward zero in between, is the floor for non-negative values |
| Indicator.AccumulatedXClosedForm | libIndicator/src/main/java/com/pretty/library/indicator/PointIndicatorView.kt:68-73 | the `startX += step` accumulator holds `startX0 + i * step` after `i` iterations |
| Indicator.RowClosedForm | libIndicator/src/main/java/com/pretty/library/indicator/LineIndicatorView.kt:61-66 | the `i`-th centre the layout loop adds is at `startX0 + i * step` on the row's line |
| Indicator.RowSnoc | libIndicator/src/main/java/com/pretty/library/indicator/PointIndicatorView.kt:69-73 | one more loop iteration appends exactly one centre, at the current accumulator value |
| Indicator.RowShape | libIndicator/src/main/java/com/pretty/library/indicator/LineIndicatorView.kt:60-66 | the row starts at the first x, keeps every centre on one horizontal line, and adjacent centres are exactly one step apart (evenly spaced) |
| Indicator.Lerp | libIndicator/src/main/java/com/pretty/library/indicator/PointIndicatorView.kt:136-138 | the interpolation with the identity `LinearInterpolator`: offset 0 gives the current centre, 1 the next, 0.5 their midpoint |
| Indicator.LerpBetween | libIndicator/src/main/java/com/pretty/library/indicator/LineIndicatorView.kt:111-113 | for an offset in [0, 1] the highlight lies between the current and the next centre |
| Indicator.ScrollPositionsInRange | libIndicator/src/main/java/com/pretty/library/indicator/PointIndicatorView.kt:132-133 | for a position in [0, Int.MAX_VALUE) both clamped indices lie in [0, size); the current one is the position when it is a page; with one centre per page the next one is `(position + 1) mod size`, wrapping to 0 |
| Indicator.NextPositionAtMaxInt | libIndicator/src/main/java/com/pretty/library/indicator/LineIndicatorView.kt:108 | at position `Int.MAX_VALUE` the sum `position + 1` wraps and the next index becomes `-(2^31 mod pagerCount)` |
| Indicator.NextPositionAtMaxIntWithThreePages | libIndicator/src/main/java/com/pretty/library/indicator/PointIndicatorView.kt:133-135 | with three pages, a scroll at `Int.MAX_VALUE` asks for index -2, and `ScrollTarget` is then `IndexOutOfBounds` |
| Indicator.ScrollTarget | libIndicator/src/main/java/com/pretty/library/indicator/PointIndicatorView.kt:132-138 | a page count of 0 throws the `ArithmeticException` of `% 0`; otherwise a negative position throws `IndexOutOfBounds`; a position in [0, Int.MAX_VALUE) with a positive page count never throws; with one centre per page it is the interpolation from the position's centre to the next page's centre |
| Indicator.ScrollAtRest | libIndicator/src/main/java/com/pretty/library/indicator/PointIndicatorView.kt:128-141 | offset 0 leaves the highlight on the current page's centre |
| Indicator.ScrollHalfway | libIndicator/src/main/java/com/pretty/library/indicator/LineIndicatorView.kt:102-116 | offset 0.5 puts the highlight midway between the current centre and the next one (the first after the last) |
| Indicator.ScrollComplete | libIndicator/src/main/java/com/pretty/library/indicator/PointIndicatorView.kt:128-141 | offset 1 brings the highlight onto the next page's centre |
| PointIndicator.PointCentresClosedForm | libIndicator/src/main/java/com/pretty/library/indicator/PointIndicatorView.kt:66-73 | `n` centres, centre `i` at x = radius + paddingLeft + i * (2 * radius + spacing), y = radius + paddingTop; adjacent centres are `2 * radius + spacing` apart |
| PointIndicator.HitIndicesExact | libIndicator/src/main/java/com/pretty/library/indicator/PointIndicatorView.kt:99-102 | the listener hears index `k` exactly when centre `k` exists and `centre.x - radius < x < centre.x + radius` (no vertical test); each index once, in increasing order |
| PointIndicator.HighlightCircles | libIndicator/src/main/java/com/pretty/library/indicator/PointIndicatorView.kt:192-203 | nothing with no centres; otherwise two circles when `selectStroke > 0`, the outer one of `radius` in `selectStrokeColor` first, else one; the last is the inner circle of `radius - selectStroke` in `selectColor`; every circle is centred at (`selectPointX`, radius + paddingTop) |
| PointIndicator.TrackCirclesLayout | libIndicator/src/main/java/com/pretty/library/indicator/PointIndicatorView.kt:180-190 | with a positive stroke, centre `i` gets the outer `strokeColor` circle at position `2i` and the inner `color` circle of `radius - stroke` at `2i + 1`; otherwise only the inner circle, at position `i` |
| PointIndicator.MeasureWidth | libIndicator/src/main/java/com/pretty/library/indicator/PointIndicatorView.kt:155-167 | EXACTLY gives the offered size, any other mode than AT_MOST/UNSPECIFIED gives 0 |
| PointIndicator.MeasureWidthWithoutOverflow | libIndicator/src/main/java/com/pretty/library/indicator/PointIndicatorView.kt:160-164 | for AT_MOST/UNSPECIFIED without overflow, for any page count n >= 0 and for non-negative sizes and padding, the width is paddingLeft + n * trunc(radius) * 2 + (n - 1) * trunc(spacing) + paddingRight; at n = 0 that is paddingLeft + paddingRight - trunc(spacing) |
| PointIndicator.MeasureHeight | libIndicator/src/main/java/com/pretty/library/indicator/PointIndicatorView.kt:169-178 | EXACTLY gives the offered size, the fourth mode 0; for AT_MOST/UNSPECIFIED in range, the whole pixels of 2 * radius + paddingTop + paddingBottom |
| PointIndicator.PointIndicatorView.constructor | libIndicator/src/main/java/com/pretty/library/indicator/PointIndicatorView.kt:19-58 | every attribute's default (radius 10, TRANSPARENT fill, RED selection, stroke colours defaulting to the fill colours, spacing defaulting to the radius, click off, follow-scroll on, margins truncated to `Int`) and an empty, valid centre list |
| PointIndicator.PointIndicatorView.InitIndicatorCount | libIndicator/src/main/java/com/pretty/library/indicator/PointIndicatorView.kt:62-79 | old centres discarded; n > 1 gives exactly the `PointCentres` row and VISIBLE, with the highlight on centre `currentIndex`, or `IndexOutOfBounds` when `currentIndex` is not a page; n <= 1 gives an empty list and GONE; the invariant (empty, or one evenly spaced centre per page) holds |
| PointIndicator.PointIndicatorView.OnMeasure | libIndicator/src/main/java/com/pretty/library/indicator/PointIndicatorView.kt:81-83 | the measured dimensions are `measureWidth` and `measureHeight` of the current fields |
| PointIndicator.PointIndicatorView.DrawCircles | libIndicator/src/main/java/com/pretty/library/indicator/PointIndicatorView.kt:180-190 | the loop draws exactly the circles of `TrackCircles`, centre by centre |
| PointIndicator.PointIndicatorView.DrawIndicator | libIndicator/src/main/java/com/pretty/library/indicator/PointIndicatorView.kt:192-203 | the highlight circles of `HighlightCircles` |
| PointIndicator.PointIndicatorView.OnDraw | libIndicator/src/main/java/com/pretty/library/indicator/PointIndicatorView.kt:85-90 | nothing without a canvas; otherwise all track circles, then the highlight on top |
| PointIndicator.PointIndicatorView.OnTouchEvent | libIndicator/src/main/java/com/pretty/library/indicator/PointIndicatorView.kt:92-112 | click off: the View's answer; a null event: `NullPointerException`; a press: consumed; a release: the View's answer, with the listener (if any) called for exactly `HitIndices`; anything else: the View's answer |
| PointIndicator.PointIndicatorView.OnPageScrolled | libIndicator/src/main/java/com/pretty/library/indicator/PointIndicatorView.kt:128-141 | no centres or follow-scroll off: nothing changes; otherwise the highlight becomes `ScrollTarget`, or the call throws and the highlight stays; on a valid state a position in [0, Int.MAX_VALUE) never throws, and a page position moves the highlight to the interpolation from its centre to the next page's |
| PointIndicator.PointIndicatorView.OnPageSelected | libIndicator/src/main/java/com/pretty/library/indicator/PointIndicatorView.kt:143-149 | follow-scroll on: nothing changes; off: `currentIndex` becomes the page, and the highlight snaps to its centre, or the unguarded lookup throws and the highlight stays |
| PointIndicator.PointIndicatorView.SetRadius | libIndicator/src/main/java/com/pretty/library/indicator/PointIndicatorView.kt:211-213 | sets the radius and nothing else |
| PointIndicator.PointIndicatorView.SetFullColor | libIndicator/src/main/java/com/pretty/library/indicator/PointIndicatorView.kt:219-221 | sets the fill colour and nothing else |
| PointIndicator.PointIndicatorView.SetStroke | libIndicator/src/main/java/com/pretty/library/indicator/PointIndicatorView.kt:227-229 | sets the stroke width and nothing else |
| PointIndicator.PointIndicatorView.SetStrokeColor | libIndicator/src/main/java/com/pretty/library/indicator/PointIndicatorView.kt:235-237 | sets the stroke colour and nothing else |
| PointIndicator.PointIndicatorView.SetFullSelectColor | libIndicator/src/main/java/com/pretty/library/indicator/PointIndicatorView.kt:243-245 | sets the highlight colour and nothing else |
| PointIndicator.PointIndicatorView.SetSelectStroke | libIndicator/src/main/java/com/pretty/library/indicator/PointIndicatorView.kt:251-253 | sets the highlight stroke and nothing else |
| PointIndicator.PointIndicatorView.SetSelectStrokeColor | libIndicator/src/main/java/com/pretty/library/indicator/PointIndicatorView.kt:259-261 | sets the highlight stroke colour and nothing else |
| PointIndicator.PointIndicatorView.SetSpace | libIndicator/src/main/java/com/pretty/library/indicator/PointIndicatorView.kt:267-269 | sets the spacing and nothing else |
| PointIndicator.PointIndicatorView.SetFollowScroll | libIndicator/src/main/java/com/pretty/library/indicator/PointIndicatorView.kt:275-277 | sets the follow-scroll flag and nothing else |
| PointIndicator.PointIndicatorView.SetClickEnable | libIndicator/src/main/java/com/pretty/library/indicator/PointIndicatorView.kt:283-285 | sets the click flag and nothing else |
| PointIndicator.PointIndicatorView.SetPositionClickListener | libIndicator/src/main/java/com/pretty/library/indicator/PointIndicatorView.kt:291-294 | registers a listener and also switches clicking on |
| PointIndicator.PointIndicatorView.SetMarginLeft | libIndicator/src/main/java/com/pretty/library/indicator/PointIndicatorView.kt:311-313 | changes only the left margin |
| PointIndicator.PointIndicatorView.SetMarginTop | libIndicator/src/main/java/com/pretty/library/indicator/PointIndicatorView.kt:318-320 | changes only the top margin |
| PointIndicator.PointIndicatorView.SetMarginRight | libIndicator/src/main/java/com/pretty/library/indicator/PointIndicatorView.kt:325-327 | changes only the right margin |
| PointIndicator.PointIndicatorView.SetMarginBottom | libIndicator/src/main/java/com/pretty/library/indicator/PointIndicatorView.kt:332-334 | changes only the bottom margin |
| PointIndicator.InitTwice | libIndicator/src/main/java/com/pretty/library/indicator/PointIndicatorView.kt:62-79 | initialising twice with the same count yields the same centre list, of `n` entries for n > 1 and none otherwise |
| PointIndicator.OneThenFive | libIndicator/src/main/java/com/pretty/library/indicator/PointIndicatorView.kt:63-73 | one page, then five: the list holds exactly the five new centres |
| PointIndicator.TapScenario | libIndicator/src/main/java/com/pretty/library/indicator/PointIndicatorView.kt:66-73 | four radius-10 circles without spacing are at x = 10, 30, 50, 70 and a release at x = 32 hits page 1 only |
| PointIndicator.TapScenarioWithSpacing | libIndicator/src/main/java/com/pretty/library/indicator/PointIndicatorView.kt:97-102 | with spacing 10 they are at x = 10, 40, 70, 100 and a release at x = 32 still hits page 1 only |
| PointIndicator.HitsOfFour | libIndicator/src/main/java/com/pretty/library/indicator/PointIndicatorView.kt:99-102 | the hit list of four centres is their band tests in index order |
| LineIndicator.LineCentresClosedForm | libIndicator/src/main/java/com/pretty/library/indicator/LineIndicatorView.kt:60-66 | `n` centres, centre `i` at x = max(w, ws) / 2 + paddingLeft + i * (max(w, ws) + space), y = lineHeight / 2 + paddingTop |
| LineIndicator.TrackBars | libIndicator/src/main/java/com/pretty/library/indicator/LineIndicatorView.kt:152-158 | one bar per centre |
| LineIndicator.BarsShareBand | libIndicator/src/main/java/com/pretty/library/indicator/LineIndicatorView.kt:155-167 | on a laid-out row every track bar and the highlight span the same rows, from paddingTop to paddingTop + lineHeight |
| LineIndicator.BarsDoNotOverlap | libIndicator/src/main/java/com/pretty/library/indicator/LineIndicatorView.kt:61-62 | with a non-negative space adjacent track bars do not overlap, and neither do highlights resting on adjacent centres |
| LineIndicator.MeasureWidth | libIndicator/src/main/java/com/pretty/library/indicator/LineIndicatorView.kt:127-139 | EXACTLY gives the offered size, the fourth mode 0 |
| LineIndicator.MeasureWidthWithoutOverflow | libIndicator/src/main/java/com/pretty/library/indicator/LineIndicatorView.kt:132-136 | for AT_MOST/UNSPECIFIED without overflow, for any page count n >= 0 and for non-negative sizes and padding, the width is paddingLeft + n * trunc(max(w, ws)) + (n - 1) * trunc(space) + paddingRight |
| LineIndicator.MeasureHeight | libIndicator/src/main/java/com/pretty/library/indicator/LineIndicatorView.kt:141-150 | EXACTLY gives the offered size, the fourth mode 0 |
| LineIndicator.MeasureHeightWithoutOverflow | libIndicator/src/main/java/com/pretty/library/indicator/LineIndicatorView.kt:146-147 | for AT_MOST/UNSPECIFIED without overflow the height is paddingTop + paddingBottom + trunc(lineHeight) |
| LineIndicator.LineIndicatorView.constructor | libIndicator/src/main/java/com/pretty/library/indicator/LineIndicatorView.kt:19-52 | every attribute's default (corner radius 10, GRAY, RED, width 90, highlight width defaulting to the width, height 20, space 0, follow-scroll on) and each side's margin defaulting to the common margin; an empty, valid centre list |
| LineIndicator.LineIndicatorView.InitIndicatorCount | libIndicator/src/main/java/com/pretty/library/indicator/LineIndicatorView.kt:56-72 | old centres discarded; n > 1 gives exactly the `LineCentres` row, VISIBLE and the highlight on centre 0, at max(w, ws) / 2 + paddingLeft; n <= 1 gives an empty list, GONE and an unmoved highlight; the invariant holds |
| LineIndicator.LineIndicatorView.OnMeasure | libIndicator/src/main/java/com/pretty/library/indicator/LineIndicatorView.kt:74-76 | the measured dimensions are `measureWidth` and `measureHeight` of the current fields |
| LineIndicator.LineIndicatorView.DrawLines | libIndicator/src/main/java/com/pretty/library/indicator/LineIndicatorView.kt:152-158 | one GRAY bar per centre, in order, `lineWidth` by `lineHeight` around the centre |
| LineIndicator.LineIndicatorView.DrawIndicator | libIndicator/src/main/java/com/pretty/library/indicator/LineIndicatorView.kt:160-170 | one RED bar `lineWidthSelect` wide around the highlight x, from paddingTop to paddingTop + lineHeight |
| LineIndicator.LineIndicatorView.OnDraw | libIndicator/src/main/java/com/pretty/library/indicator/LineIndicatorView.kt:78-86 | nothing with no centres or no canvas; otherwise the track bars then the highlight; the colours are GRAY and RED whatever `color` and `colorSelect` hold |
| LineIndicator.LineIndicatorView.OnPageScrolled | libIndicator/src/main/java/com/pretty/library/indicator/LineIndicatorView.kt:102-116 | no centres or follow-scroll off: nothing changes; otherwise the highlight becomes `ScrollTarget`, or the call throws and the highlight stays; on a valid state a position in [0, Int.MAX_VALUE) never throws, and a page position moves the highlight to the interpolation from its centre to the next page's |
| LineIndicator.LineIndicatorView.OnPageSelected | libIndicator/src/main/java/com/pretty/library/indicator/LineIndicatorView.kt:118-123 | follow-scroll on: nothing changes; off: the highlight snaps to the page's centre, or the unguarded lookup throws and it stays |
| LineIndicator.LineIndicatorView.SetRoundRadius | libIndicator/src/main/java/com/pretty/library/indicator/LineIndicatorView.kt:175-177 | sets the corner radius and nothing else |
| LineIndicator.LineIndicatorView.SetColor | libIndicator/src/main/java/com/pretty/library/indicator/LineIndicatorView.kt:182-184 | sets `color` and nothing else |
| LineIndicator.LineIndicatorView.SetColorSelect | libIndicator/src/main/java/com/pretty/library/indicator/LineIndicatorView.kt:189-191 | sets `colorSelect` and nothing else |
| LineIndicator.LineIndicatorView.SetWidth | libIndicator/src/main/java/com/pretty/library/indicator/LineIndicatorView.kt:196-198 | sets the bar width and nothing else |
| LineIndicator.LineIndicatorView.SetWidthSelect | libIndicator/src/main/java/com/pretty/library/indicator/LineIndicatorView.kt:203-205 | sets the highlight width and nothing else |
| LineIndicator.LineIndicatorView.SetHeight | libIndicator/src/main/java/com/pretty/library/indicator/LineIndicatorView.kt:210-212 | sets the bar height and nothing else |
| LineIndicator.LineIndicatorView.SetFollowScroll | libIndicator/src/main/java/com/pretty/library/indicator/LineIndicatorView.kt:217-219 | sets the follow-scroll flag and nothing else |
| LineIndicator.LineIndicatorView.SetMargin | libIndicator/src/main/java/com/pretty/library/indicator/LineIndicatorView.kt:224-226 | sets all four margins to the same value |
| LineIndicator.LineIndicatorView.SetSpace | libIndicator/src/main/java/com/pretty/library/indicator/LineIndicatorView.kt:232-234 | sets the space and nothing else |
| LineIndicator.LineIndicatorView.SetMarginLeft | libIndicator/src/main/java/com/pretty/library/indicator/LineIndicatorView.kt:239-241 | changes only the left margin |
| LineIndicator.LineIndicatorView.SetMarginTop | libIndicator/src/main/java/com/pretty/library/indicator/LineIndicatorView.kt:246-248 | changes only the top margin |
| LineIndicator.LineIndicatorView.SetMarginRight | libIndicator/src/main/java/com/pretty/library/indicator/LineIndicatorView.kt:253-255 | changes only the right margin |
| LineIndicator.LineIndicatorView.SetMarginBottom | libIndicator/src/main/java/com/pretty/library/indicator/LineIndicatorView.kt:260-262 | changes only the bottom margin |
| LineIndicator.ScrollScenario | libIndicator/src/main/java/com/pretty/library/indicator/LineIndicatorView.kt:102-116 | three 90-pixel bars without space are centred at x = 45, 135, 225, and halfway from page 0 to page 1 the highlight is at x = 90 |
| KotlinInt.Sub | libIndicator/src/main/java/com/pretty/library/indicator/PointIndicatorView.kt:162 | Kotlin `Int` subtraction: the exact difference when it fits, otherwise the difference wrapped by 2^32 in the direction of the overflow |
| KotlinInt.Min | libIndicator/src/main/java/com/pretty/library/indicator/PointIndicatorView.kt:132-133 | `min`: no larger than either argument and equal to one of them |
| KotlinInt.Max | libIndicator/src/main/java/com/pretty/library/indicator/LineIndicatorView.kt:61-62 | `max` of two Floats: no smaller than either argument and equal to one of them |
| Indicator.AccumulatedX | libIndicator/src/main/java/com/pretty/library/indicator/PointIndicatorView.kt:68-72 | the value of the `startX` accumulator after `i` iterations; its closed form is `AccumulatedXClosedForm` |
| Indicator.Row | libIndicator/src/main/java/com/pretty/library/indicator/LineIndicatorView.kt:63-66 | the list a layout loop builds: `n` centres, centre `i` at the accumulator's `i`-th value on one line; its shape is `RowShape` and `RowClosedForm` |
| Indicator.EvenlySpaced | libIndicator/src/main/java/com/pretty/library/indicator/PointIndicatorView.kt:66-73 | the layout invariant: every centre on the first centre's line, and each adjacent pair the same distance apart |
| Indicator.Interpolation | libIndicator/src/main/java/com/pretty/library/indicator/PointIndicatorView.kt:136-138 | `LinearInterpolator.getInterpolation` is the identity |
| Indicator.CurrentPosition | libIndicator/src/main/java/com/pretty/library/indicator/PointIndicatorView.kt:132 | `min(size - 1, position)`: at most the last index and at most the position, and equal to one of them |
| Indicator.NextPosition | libIndicator/src/main/java/com/pretty/library/indicator/LineIndicatorView.kt:108 | `min(size - 1, (position + 1) % pagerCount)` in 32-bit arithmetic: at most the last index and at most the wrapped remainder, and equal to one of them |
| PointIndicator.PointCentres | libIndicator/src/main/java/com/pretty/library/indicator/PointIndicatorView.kt:66-73 | the row `initIndicatorCount` builds; its closed form is `PointCentresClosedForm` |
| PointIndicator.InBand | libIndicator/src/main/java/com/pretty/library/indicator/PointIndicatorView.kt:100 | the strict horizontal band test, with no vertical test |
| PointIndicator.HitIndices | libIndicator/src/main/java/com/pretty/library/indicator/PointIndicatorView.kt:98-103 | the indices passed to `positionClick`, in call order; `HitIndicesExact` states which they are |
| PointIndicator.StrokedCircle | libIndicator/src/main/java/com/pretty/library/indicator/PointIndicatorView.kt:183-188 | the two-pass fill of one centre: an outer circle of `radius` in the stroke colour first exactly when the stroke is positive, then the inner circle of `radius - stroke` in the fill colour |
| PointIndicator.TrackCircles | libIndicator/src/main/java/com/pretty/library/indicator/PointIndicatorView.kt:180-190 | the circles `drawCircles` draws, centre by centre; their positions are `TrackCirclesLayout` |
| PointIndicator.MeasureWidthWithNoPages | libIndicator/src/main/java/com/pretty/library/indicator/PointIndicatorView.kt:155-167 | before any `initIndicatorCount` (page count 0) with the default radius and spacing 10 and no padding, the measured width is -10 |
| PointIndicator.PointIndicatorView.Valid | libIndicator/src/main/java/com/pretty/library/indicator/PointIndicatorView.kt:62-79 | the centre list is empty or holds one evenly spaced centre per page of a count above one |
| PointIndicator.InitThenScroll | libIndicator/src/main/java/com/pretty/library/indicator/PointIndicatorView.kt:62-79 | after laying out more than one page, a follow-scroll `onPageScrolled` at any position in [0, Int.MAX_VALUE) returns normally |
| LineIndicator.LineCentres | libIndicator/src/main/java/com/pretty/library/indicator/LineIndicatorView.kt:60-66 | the row `initIndicatorCount` builds; its closed form is `LineCentresClosedForm` |
| LineIndicator.TrackBounds | libIndicator/src/main/java/com/pretty/library/indicator/LineIndicatorView.kt:155 | the bar `lineWidth` by `lineHeight` centred on a centre |
| LineIndicator.HighlightBounds | libIndicator/src/main/java/com/pretty/library/indicator/LineIndicatorView.kt:162-168 | the highlight bar, `lineWidthSelect` wide around the highlight x, from paddingTop to paddingTop + lineHeight |
| LineIndicator.LineIndicatorView.Valid | libIndicator/src/main/java/com/pretty/library/indicator/LineIndicatorView.kt:56-72 | the centre list is empty or holds one evenly spaced centre per page of a count above one |

## Left out

- Point view `setMargin` and `params()` (PointIndicatorView.kt:114-126, 299-306): inside `marginRect.let { .. }` the names `left`, `top`, `right` and `bottom` are the View's own position properties, not the rectangle's, so these two touch framework state. The constructor's `setMargin` call is left out for the same reason.
- `params()` and `addLayoutParamRule` of both views: they build `RelativeLayout.LayoutParams`, a platform type.
- `getView()`: it returns the view itself.
- `onPageScrollStateChanged`: its body is empty.
- `Indicator.kt`: an interface with no behaviour. The model uses its operation names.
- `requestLayout()`, `invalidate()`, `setMeasuredDimension`, `obtainStyledAttributes`/`recycle` and `MeasureSpec` bit decoding: these are framework calls. Modes and sizes arrive already decoded.
- `Canvas` and `Paint`: anti-aliasing, paint style and the pixels drawn are not modelled. A draw is the sequence of shape calls it makes.
- Floating point: `Float` is modelled as `real`. Rounding in the `startX += step` accumulator and in the interpolation is not modelled. The accumulated centres are therefore exactly the closed form.
- `positionOffsetPixels`: the code never reads it.
- The click listener: only its presence is modelled, not its identity. What a listener does when `positionClick` is called is outside the views.
- `super.onTouchEvent(event)`: its answer is a parameter, and its side effects belong to the framework.
- The fluent `apply { .. }` return of the setters: it returns the same object, which the model's methods do not return.
