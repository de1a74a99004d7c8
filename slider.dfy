/** The draggable slider widget: its value <-> pixel mapping, its thumb hit-test geometry,
    the measurement state machine that caches the sizes of container, track and thumb,
    and the pan-gesture handlers. Arithmetic is exact (`real`), not IEEE. */
module Slider {
  import opened Optional

  // ---------------------------------------------------------------------------
  // Geometry values
  // ---------------------------------------------------------------------------

  datatype Size = Size(width: real, height: real)

  const ZeroSize: Size := Size(0.0, 0.0)

  /** The `Rect` helper object: origin and extent. */
  datatype Rect = Rect(x: real, y: real, width: real, height: real)

  /** `Rect.prototype.containsPoint`: inclusive on all four edges. */
  predicate ContainsPoint(r: Rect, px: real, py: real)
  {
    px >= r.x && py >= r.y && px <= r.x + r.width && py <= r.y + r.height
  }

  /** A rectangle of non-negative extent contains exactly the points of the closed box
      spanned by its corners; in particular all four corners are hits. */
  lemma ContainsPointClosedBox(r: Rect, px: real, py: real)
    requires r.width >= 0.0 && r.height >= 0.0
    ensures ContainsPoint(r, r.x, r.y) && ContainsPoint(r, r.x + r.width, r.y)
    ensures ContainsPoint(r, r.x, r.y + r.height) && ContainsPoint(r, r.x + r.width, r.y + r.height)
    ensures ContainsPoint(r, px, py) <==>
              (r.x <= px <= r.x + r.width && r.y <= py <= r.y + r.height)
  {
  }

  // ---------------------------------------------------------------------------
  // Props
  // ---------------------------------------------------------------------------

  /** The three callbacks `_fireChangeEvent` may invoke. */
  datatype EventKind = SlidingStart | ValueChange | SlidingComplete

  /** One callback invocation, with the value it was passed. */
  datatype Fired = Fired(kind: EventKind, value: real)

  /** The configuration the parent passes in. `handlers` holds the callbacks that are
      present; `disabled` and `animateTransitions` default to undefined, i.e. false. */
  datatype Props = Props(
    value: real,
    minimumValue: real,
    maximumValue: real,
    step: real,
    thumbTouchSize: Size,
    disabled: bool,
    animateTransitions: bool,
    handlers: set<EventKind>)

  /** `Slider.defaultProps`, with no callbacks attached. */
  function DefaultProps(): (p: Props)
    ensures p.minimumValue < p.maximumValue && p.step == 0.0 && !p.disabled
  {
    Props(0.0, 0.0, 1.0, 0.0, Size(40.0, 40.0), false, false, {})
  }

  // ---------------------------------------------------------------------------
  // Value <-> pixel mapping
  // ---------------------------------------------------------------------------

  /** JavaScript `Math.max` / `Math.min` on non-NaN numbers. */
  function Max(a: real, b: real): real { if a >= b then a else b }
  function Min(a: real, b: real): real { if a <= b then a else b }

  /** JavaScript `Math.round`: rounds half-way cases up (towards +infinity). */
  function Round(x: real): (k: int)
    ensures x - 0.5 < k as real <= x + 0.5
  {
    (x + 0.5).Floor
  }

  /** The pixel distance the thumb can travel. */
  function TravelRange(container: Size, thumb: Size): real
  {
    container.width - thumb.width
  }

  /** `_getRatio`: where `v` sits in the domain, as a fraction of the domain's width. */
  function Ratio(p: Props, v: real): (ratio: real)
    requires p.minimumValue < p.maximumValue
    ensures p.minimumValue + ratio * (p.maximumValue - p.minimumValue) == v
    ensures p.minimumValue <= v <= p.maximumValue ==> 0.0 <= ratio <= 1.0
  {
    var ratio := (v - p.minimumValue) / (p.maximumValue - p.minimumValue);
    DivMul(v - p.minimumValue, p.maximumValue - p.minimumValue);
    DivSign(v - p.minimumValue, p.maximumValue - p.minimumValue);
    DivCompareOne(v - p.minimumValue, p.maximumValue - p.minimumValue);
    ratio
  }

  /** `_getThumbLeft`: the thumb's pixel offset for value `v`. */
  function ThumbLeft(p: Props, container: Size, thumb: Size, v: real): (left: real)
    requires p.minimumValue < p.maximumValue
    ensures v == p.minimumValue ==> left == 0.0
    ensures v == p.maximumValue ==> left == TravelRange(container, thumb)
    ensures TravelRange(container, thumb) >= 0.0 && p.minimumValue <= v <= p.maximumValue ==>
              0.0 <= left <= TravelRange(container, thumb)
  {
    var ratio := Ratio(p, v);
    var left := ratio * TravelRange(container, thumb);
    MulAtMostOneIf(ratio, TravelRange(container, thumb));
    left
  }

  lemma MulAtMostOneIf(a: real, b: real)
    ensures 0.0 <= a <= 1.0 && b >= 0.0 ==> 0.0 <= a * b <= b
  {
    if 0.0 <= a <= 1.0 && b >= 0.0 {
      MulNonneg(a, b);
      MulNonneg(1.0 - a, b);
      assert (1.0 - a) * b == b - a * b;
    }
  }

  /** The value a thumb offset denotes, before it is snapped or clamped. */
  function RawValue(p: Props, container: Size, thumb: Size, offset: real): real
    requires TravelRange(container, thumb) > 0.0
  {
    (offset / TravelRange(container, thumb)) * (p.maximumValue - p.minimumValue) + p.minimumValue
  }

  /** The grid point `k` steps above `lo`. */
  function GridPoint(lo: real, step: real, k: int): real
  {
    lo + k as real * step
  }

  /** `Math.max(lo, Math.min(hi, x))`, the clamp `_getValue` applies last. */
  function Clamp(lo: real, hi: real, x: real): real
  {
    Max(lo, Min(hi, x))
  }

  /** How many steps above the minimum a ratio lands, before rounding. */
  function StepCount(p: Props, ratio: real): real
    requires p.step != 0.0
  {
    (ratio * (p.maximumValue - p.minimumValue)) / p.step
  }

  /** The number of steps the stepped branch of `_getValue` rounds the ratio to. */
  function SnapIndex(p: Props, ratio: real): int
    requires p.step != 0.0
  {
    Round(StepCount(p, ratio))
  }

  /** `_getValue`: the value for thumb offset `previousLeft + dx`. A non-zero `step` snaps
      (half-up) to the grid anchored at `minimumValue`; the result is then clamped. */
  function GetValue(p: Props, container: Size, thumb: Size, previousLeft: real, dx: real): (r: real)
    requires TravelRange(container, thumb) > 0.0
    ensures r >= p.minimumValue
    ensures p.minimumValue <= p.maximumValue ==> r <= p.maximumValue
  {
    var ratio := (previousLeft + dx) / TravelRange(container, thumb);
    if p.step != 0.0 then
      Clamp(p.minimumValue, p.maximumValue, GridPoint(p.minimumValue, p.step, SnapIndex(p, ratio)))
    else
      Clamp(p.minimumValue, p.maximumValue, ratio * (p.maximumValue - p.minimumValue) + p.minimumValue)
  }

  /** Continuous mode: an offset at or left of the track start yields exactly the minimum. */
  lemma ContinuousClampsAtStart(p: Props, container: Size, thumb: Size, previousLeft: real, dx: real)
    requires TravelRange(container, thumb) > 0.0 && p.step == 0.0
    requires previousLeft + dx <= 0.0
    ensures GetValue(p, container, thumb, previousLeft, dx) == p.minimumValue
  {
    var ratio := (previousLeft + dx) / TravelRange(container, thumb);
    assert ratio <= 0.0 by { DivSign(previousLeft + dx, TravelRange(container, thumb)); }
    if p.maximumValue >= p.minimumValue {
      MulNonpos(ratio, p.maximumValue - p.minimumValue);
    }
  }

  /** Continuous mode: an offset at or right of the track end yields exactly the maximum. */
  lemma ContinuousClampsAtEnd(p: Props, container: Size, thumb: Size, previousLeft: real, dx: real)
    requires TravelRange(container, thumb) > 0.0 && p.step == 0.0
    requires p.minimumValue <= p.maximumValue
    requires previousLeft + dx >= TravelRange(container, thumb)
    ensures GetValue(p, container, thumb, previousLeft, dx) == p.maximumValue
  {
    var length := TravelRange(container, thumb);
    var ratio := (previousLeft + dx) / length;
    DivCompareOne(previousLeft + dx, length);
    MulNonneg(ratio - 1.0, p.maximumValue - p.minimumValue);
  }

  /** Stepped mode: the result is the maximum or a grid point at least `minimumValue`. */
  lemma SteppedOnGrid(p: Props, container: Size, thumb: Size, previousLeft: real, dx: real)
    requires TravelRange(container, thumb) > 0.0 && p.step > 0.0
    requires p.minimumValue <= p.maximumValue
    ensures var r := GetValue(p, container, thumb, previousLeft, dx);
            r == p.maximumValue ||
            exists k: int :: k >= 0 && r == GridPoint(p.minimumValue, p.step, k)
  {
    var r := GetValue(p, container, thumb, previousLeft, dx);
    var ratio := (previousLeft + dx) / TravelRange(container, thumb);
    var k := SnapIndex(p, ratio);
    var snapped := GridPoint(p.minimumValue, p.step, k);
    assert r == Clamp(p.minimumValue, p.maximumValue, snapped);
    if snapped >= p.maximumValue {
      assert r == p.maximumValue;
    } else if snapped < p.minimumValue {
      assert r == GridPoint(p.minimumValue, p.step, 0);
    } else {
      assert r == snapped;
      if k < 0 {
        MulNonpos(k as real, p.step);
        MulPos(-(k as real), p.step);
      }
    }
  }

  /** Half-up rounding to the grid: strictly inside the bounds, the clamped grid point is
      within half a step of `lo + x * step`, ties going up. */
  lemma SnapWithinHalfStep(lo: real, hi: real, step: real, x: real)
    requires step > 0.0
    ensures var r := Clamp(lo, hi, GridPoint(lo, step, Round(x)));
            lo < r < hi ==> -step / 2.0 < r - (lo + x * step) <= step / 2.0
  {
    var k := Round(x);
    var r := Clamp(lo, hi, GridPoint(lo, step, k));
    if lo < r < hi {
      assert r == lo + k as real * step;
      var d := k as real - x;
      assert -0.5 < d <= 0.5;
      MulBetween(d, step);
      assert r - (lo + x * step) == d * step;
    }
  }

  /** Stepped mode: strictly inside the bounds the result is the grid point nearest the
      raw value, with a tie going to the upper grid point. */
  lemma SteppedRoundsHalfUp(p: Props, container: Size, thumb: Size, previousLeft: real, dx: real)
    requires TravelRange(container, thumb) > 0.0 && p.step > 0.0
    ensures var r := GetValue(p, container, thumb, previousLeft, dx);
            var raw := RawValue(p, container, thumb, previousLeft + dx);
            p.minimumValue < r < p.maximumValue ==>
              -p.step / 2.0 < r - raw <= p.step / 2.0
  {
    var ratio := (previousLeft + dx) / TravelRange(container, thumb);
    var span := ratio * (p.maximumValue - p.minimumValue);
    var x := span / p.step;
    DivMul(span, p.step);
    assert RawValue(p, container, thumb, previousLeft + dx) == p.minimumValue + x * p.step;
    assert StepCount(p, ratio) == x;
    assert GetValue(p, container, thumb, previousLeft, dx) ==
           Clamp(p.minimumValue, p.maximumValue, GridPoint(p.minimumValue, p.step, SnapIndex(p, ratio)));
    SnapWithinHalfStep(p.minimumValue, p.maximumValue, p.step, x);
  }

  /** Stepped mode: an offset at or left of the track start yields exactly the minimum. */
  lemma SteppedClampsAtStart(p: Props, container: Size, thumb: Size, previousLeft: real, dx: real)
    requires TravelRange(container, thumb) > 0.0 && p.step > 0.0
    requires p.minimumValue <= p.maximumValue
    requires previousLeft + dx <= 0.0
    ensures GetValue(p, container, thumb, previousLeft, dx) == p.minimumValue
  {
    var ratio := (previousLeft + dx) / TravelRange(container, thumb);
    DivSign(previousLeft + dx, TravelRange(container, thumb));
    var span := ratio * (p.maximumValue - p.minimumValue);
    MulNonpos(ratio, p.maximumValue - p.minimumValue);
    DivSign(span, p.step);
    assert StepCount(p, ratio) <= 0.0;
    var k := SnapIndex(p, ratio);
    assert k <= 0;
    MulNonpos(k as real, p.step);
  }

  /** Round trip value -> pixel -> value: dragging by nothing from the offset of `v`
      gives back `v` (continuous mode). */
  lemma ValuePixelRoundTrip(p: Props, container: Size, thumb: Size, v: real)
    requires p.minimumValue < p.maximumValue && TravelRange(container, thumb) > 0.0
    requires p.step == 0.0 && p.minimumValue <= v <= p.maximumValue
    ensures GetValue(p, container, thumb, ThumbLeft(p, container, thumb, v), 0.0) == v
  {
    var length := TravelRange(container, thumb);
    var ratio := Ratio(p, v);
    var left := ThumbLeft(p, container, thumb, v);
    assert left == ratio * length;
    MulDiv(ratio, length);
    assert (left + 0.0) / length == ratio;
  }

  /** Round trip pixel -> value -> pixel: the value a drag produces maps back to the drag's
      offset clamped to the track (continuous mode). */
  lemma PixelValueRoundTrip(p: Props, container: Size, thumb: Size, previousLeft: real, dx: real)
    requires p.minimumValue < p.maximumValue && TravelRange(container, thumb) > 0.0
    requires p.step == 0.0
    ensures ThumbLeft(p, container, thumb, GetValue(p, container, thumb, previousLeft, dx)) ==
            Clamp(0.0, TravelRange(container, thumb), previousLeft + dx)
  {
    var length := TravelRange(container, thumb);
    var offset := previousLeft + dx;
    if offset <= 0.0 {
      ContinuousClampsAtStart(p, container, thumb, previousLeft, dx);
    } else if offset >= length {
      ContinuousClampsAtEnd(p, container, thumb, previousLeft, dx);
    } else {
      var ratio := offset / length;
      DivMul(offset, length);
      assert ratio * length == offset;
      assert 0.0 < ratio < 1.0 by {
        DivSign(offset, length);
        DivCompareOne(offset, length);
      }
      var w := p.maximumValue - p.minimumValue;
      var v := ratio * w + p.minimumValue;
      MulBetween01(ratio, w);
      assert GetValue(p, container, thumb, previousLeft, dx) == v;
      assert Ratio(p, v) == ratio by {
        assert p.minimumValue + Ratio(p, v) * w == v;
        assert (Ratio(p, v) - ratio) * w == 0.0;
        MulZero(Ratio(p, v) - ratio, w);
      }
    }
  }

  // Arithmetic facts over `real` that the solver needs spelled out.

  lemma DivMul(a: real, b: real)
    requires b != 0.0
    ensures (a / b) * b == a
  {
  }

  lemma MulDiv(a: real, b: real)
    requires b != 0.0
    ensures (a * b) / b == a
  {
  }

  lemma DivSign(a: real, b: real)
    requires b > 0.0
    ensures a <= 0.0 ==> a / b <= 0.0
    ensures a >= 0.0 ==> a / b >= 0.0
    ensures a > 0.0 ==> a / b > 0.0
    ensures a < 0.0 ==> a / b < 0.0
  {
  }

  lemma DivCompareOne(a: real, b: real)
    requires b > 0.0
    ensures a >= b ==> a / b >= 1.0
    ensures a <= b ==> a / b <= 1.0
    ensures a < b ==> a / b < 1.0
  {
  }

  lemma MulPos(a: real, b: real)
    requires a > 0.0 && b > 0.0
    ensures a * b > 0.0
  {
  }

  lemma MulNonneg(a: real, b: real)
    requires a >= 0.0 && b >= 0.0
    ensures a * b >= 0.0
  {
  }

  lemma MulNonpos(a: real, b: real)
    requires a <= 0.0 && b >= 0.0
    ensures a * b <= 0.0
  {
  }

  lemma MulZero(a: real, b: real)
    requires b != 0.0 && a * b == 0.0
    ensures a == 0.0
  {
  }

  lemma MulBetween(a: real, b: real)
    requires -0.5 < a <= 0.5 && b > 0.0
    ensures -b / 2.0 < a * b <= b / 2.0
  {
  }

  lemma MulBetween01(a: real, b: real)
    requires 0.0 < a < 1.0 && b > 0.0
    ensures 0.0 < a * b < b
  {
    MulPos(a, b);
    MulPos(1.0 - a, b);
  }

  // ---------------------------------------------------------------------------
  // Touch geometry
  // ---------------------------------------------------------------------------

  /** `_getTouchOverflowSize`: how far the touch area exceeds the thumb horizontally and
      the container vertically; the empty object (None) until everything is measured. */
  function TouchOverflowSize(p: Props, allMeasured: bool, container: Size, thumb: Size): (o: Option<Size>)
    ensures o.Some? <==> allMeasured
    ensures o.Some? ==> o.value.width >= 0.0 && o.value.height >= 0.0
    ensures o.Some? ==> o.value.width >= p.thumbTouchSize.width - thumb.width
    ensures o.Some? ==> o.value.height >= p.thumbTouchSize.height - container.height
    ensures o.Some? ==> (o.value.width == 0.0 || o.value.width == p.thumbTouchSize.width - thumb.width)
    ensures o.Some? ==> (o.value.height == 0.0 || o.value.height == p.thumbTouchSize.height - container.height)
  {
    if allMeasured then
      Some(Size(Max(0.0, p.thumbTouchSize.width - thumb.width),
                Max(0.0, p.thumbTouchSize.height - container.height)))
    else
      None
  }

  /** `_getThumbTouchRect`: the `thumbTouchSize` rectangle centred over the thumb, shifted by
      half the touch overflow. Before everything is measured the overflow is the empty object,
      whose halves are NaN, so the rectangle has a NaN origin: modelled as None. */
  function ThumbTouchRect(p: Props, allMeasured: bool, container: Size, thumb: Size, value: real): (r: Option<Rect>)
    requires p.minimumValue < p.maximumValue
    ensures r.Some? <==> allMeasured
    ensures r.Some? ==> r.value.width == p.thumbTouchSize.width && r.value.height == p.thumbTouchSize.height
    ensures r.Some? ==>
              var o := TouchOverflowSize(p, allMeasured, container, thumb).value;
              && r.value.x + r.value.width / 2.0 ==
                   o.width / 2.0 + ThumbLeft(p, container, thumb, value) + thumb.width / 2.0
              && r.value.y + r.value.height / 2.0 == o.height / 2.0 + container.height / 2.0
  {
    match TouchOverflowSize(p, allMeasured, container, thumb)
    case None => None
    case Some(o) =>
      Some(Rect(o.width / 2.0 + ThumbLeft(p, container, thumb, value) +
                  (thumb.width - p.thumbTouchSize.width) / 2.0,
                o.height / 2.0 + (container.height - p.thumbTouchSize.height) / 2.0,
                p.thumbTouchSize.width,
                p.thumbTouchSize.height))
  }

  /** `_thumbHitTest`: does a touch at the local position (lx, ly) land on the thumb? */
  predicate ThumbHitTest(p: Props, allMeasured: bool, container: Size, thumb: Size, value: real, lx: real, ly: real)
    requires p.minimumValue < p.maximumValue
  {
    match ThumbTouchRect(p, allMeasured, container, thumb, value)
    case None => false
    case Some(r) => ContainsPoint(r, lx, ly)
  }

  /** Before all three elements are measured no touch starts a drag; afterwards a touch at
      the centre of the thumb's touch area always does. */
  lemma HitTestGatedByMeasurement(p: Props, allMeasured: bool, container: Size, thumb: Size, value: real)
    requires p.minimumValue < p.maximumValue
    requires p.thumbTouchSize.width >= 0.0 && p.thumbTouchSize.height >= 0.0
    ensures forall lx: real, ly: real {:trigger ThumbHitTest(p, allMeasured, container, thumb, value, lx, ly)} ::
              !allMeasured ==> !ThumbHitTest(p, allMeasured, container, thumb, value, lx, ly)
    ensures allMeasured ==>
              var o := TouchOverflowSize(p, allMeasured, container, thumb).value;
              ThumbHitTest(p, allMeasured, container, thumb, value,
                           o.width / 2.0 + ThumbLeft(p, container, thumb, value) + thumb.width / 2.0,
                           o.height / 2.0 + container.height / 2.0)
  {
    if allMeasured {
      var r := ThumbTouchRect(p, allMeasured, container, thumb, value).value;
      ContainsPointClosedBox(r, r.x + r.width / 2.0, r.y + r.height / 2.0);
    }
  }

  // ---------------------------------------------------------------------------
  // Measurement state machine (`_handleMeasure`)
  // ---------------------------------------------------------------------------

  datatype Element = Container | Track | Thumb

  /** One layout report: which element, and the size it was laid out at. */
  datatype Report = Report(element: Element, size: Size)

  /** The instance caches `_containerSize`, `_trackSize`, `_thumbSize` (None until first
      reported) and the published sizes and `allMeasured` flag of the component state. */
  datatype Layout = Layout(
    containerCache: Option<Size>,
    trackCache: Option<Size>,
    thumbCache: Option<Size>,
    containerSize: Size,
    trackSize: Size,
    thumbSize: Size,
    allMeasured: bool)

  /** The state the component starts in: nothing cached, zero sizes published. */
  const InitialLayout: Layout :=
    Layout(None, None, None, ZeroSize, ZeroSize, ZeroSize, false)

  function Cached(l: Layout, e: Element): Option<Size>
  {
    match e
    case Container => l.containerCache
    case Track => l.trackCache
    case Thumb => l.thumbCache
  }

  /** What the component keeps true: sizes are published, with `allMeasured`, exactly when
      all three caches are filled, and then they are the cached sizes; otherwise the
      published sizes are still the initial zero sizes. */
  ghost predicate LayoutValid(l: Layout)
  {
    && (l.allMeasured <==> (l.containerCache.Some? && l.trackCache.Some? && l.thumbCache.Some?))
    && (l.allMeasured ==>
          && l.containerSize == l.containerCache.value
          && l.trackSize == l.trackCache.value
          && l.thumbSize == l.thumbCache.value)
    && (!l.allMeasured ==>
          l.containerSize == ZeroSize && l.trackSize == ZeroSize && l.thumbSize == ZeroSize)
  }

  /** `_handleMeasure`: a report equal to the cached size is ignored; otherwise it is cached,
      and once all three caches are filled every cached size is published with
      `allMeasured = true`. */
  function Measure(l: Layout, e: Element, s: Size): (l': Layout)
    ensures Cached(l', e) == Some(s)
    ensures forall e' :: e' != e ==> Cached(l', e') == Cached(l, e')
    ensures l.allMeasured ==> l'.allMeasured
  {
    if Cached(l, e).Some? && Cached(l, e).value.width == s.width && Cached(l, e).value.height == s.height then
      l
    else
      var l1 := match e
        case Container => l.(containerCache := Some(s))
        case Track => l.(trackCache := Some(s))
        case Thumb => l.(thumbCache := Some(s));
      if l1.containerCache.Some? && l1.trackCache.Some? && l1.thumbCache.Some? then
        l1.(containerSize := l1.containerCache.value,
            trackSize := l1.trackCache.value,
            thumbSize := l1.thumbCache.value,
            allMeasured := true)
      else
        l1
  }

  /** A report repeating the cached size changes nothing at all. */
  lemma MeasureRepeatIsNoOp(l: Layout, e: Element, s: Size)
    requires Cached(l, e) == Some(s)
    ensures Measure(l, e, s) == l
  {
  }

  lemma MeasurePreservesValid(l: Layout, e: Element, s: Size)
    requires LayoutValid(l)
    ensures LayoutValid(Measure(l, e, s))
  {
  }

  /** A sequence of layout reports processed in order. */
  function Replay(l: Layout, reports: seq<Report>): Layout
    decreases |reports|
  {
    if reports == [] then l
    else Replay(Measure(l, reports[0].element, reports[0].size), reports[1..])
  }

  /** Some report in the sequence is about element `e`. */
  ghost predicate ReportedIn(reports: seq<Report>, e: Element)
  {
    exists i :: 0 <= i < |reports| && reports[i].element == e
  }

  /** Replaying keeps the invariant, never clears `allMeasured`, and fills exactly the
      caches that were filled before or are reported. */
  lemma {:induction false} ReplayCaches(l: Layout, reports: seq<Report>)
    requires LayoutValid(l)
    ensures LayoutValid(Replay(l, reports))
    ensures l.allMeasured ==> Replay(l, reports).allMeasured
    ensures forall e :: Cached(Replay(l, reports), e).Some? <==>
                        (Cached(l, e).Some? || ReportedIn(reports, e))
    decreases |reports|
  {
    if reports != [] {
      var l1 := Measure(l, reports[0].element, reports[0].size);
      MeasurePreservesValid(l, reports[0].element, reports[0].size);
      ReplayCaches(l1, reports[1..]);
      forall e ensures Cached(Replay(l, reports), e).Some? <==>
                       (Cached(l, e).Some? || ReportedIn(reports, e))
      {
        if ReportedIn(reports[1..], e) {
          var i :| 0 <= i < |reports[1..]| && reports[1..][i].element == e;
          assert reports[i + 1].element == e;
        }
        if ReportedIn(reports, e) && reports[0].element != e {
          var i :| 0 <= i < |reports| && reports[i].element == e;
          assert reports[1..][i - 1].element == e;
        }
      }
    }
  }

  /** Starting from the initial layout, `allMeasured` holds exactly when container, track and
      thumb have each been reported at least once (whatever the sizes, 0 x 0 included);
      until then the published sizes stay zero. */
  lemma AllMeasuredIffAllReported(reports: seq<Report>)
    ensures Replay(InitialLayout, reports).allMeasured <==>
              (ReportedIn(reports, Container) && ReportedIn(reports, Track) && ReportedIn(reports, Thumb))
    ensures !Replay(InitialLayout, reports).allMeasured ==>
              && Replay(InitialLayout, reports).containerSize == ZeroSize
              && Replay(InitialLayout, reports).trackSize == ZeroSize
              && Replay(InitialLayout, reports).thumbSize == ZeroSize
  {
    ReplayCaches(InitialLayout, reports);
    assert Cached(Replay(InitialLayout, reports), Container).Some? == ReportedIn(reports, Container);
    assert Cached(Replay(InitialLayout, reports), Track).Some? == ReportedIn(reports, Track);
    assert Cached(Replay(InitialLayout, reports), Thumb).Some? == ReportedIn(reports, Thumb);
  }

  // ---------------------------------------------------------------------------
  // The component
  // ---------------------------------------------------------------------------

  /** The slider component. Its fields are the instance caches, the component state
      (published sizes, `allMeasured`, current value), the drag anchor `_previousLeft`
      and, standing for the parent's callbacks, the log of callback invocations. */
  class SliderComponent {
    var props: Props
    var containerCache: Option<Size>
    var trackCache: Option<Size>
    var thumbCache: Option<Size>
    var containerSize: Size
    var trackSize: Size
    var thumbSize: Size
    var allMeasured: bool
    var value: real
    var previousLeft: Option<real>
    var fired: seq<Fired>

    function CurrentLayout(): Layout
      reads this
    {
      Layout(containerCache, trackCache, thumbCache, containerSize, trackSize, thumbSize, allMeasured)
    }

    ghost predicate Valid()
      reads this
    {
      LayoutValid(CurrentLayout())
    }

    /** The initial state: zero sizes, nothing measured, value taken from the props. */
    constructor (p: Props)
      ensures Valid() && CurrentLayout() == InitialLayout
      ensures props == p && value == p.value && previousLeft == None && fired == []
    {
      props := p;
      containerCache, trackCache, thumbCache := None, None, None;
      containerSize, trackSize, thumbSize := ZeroSize, ZeroSize, ZeroSize;
      allMeasured := false;
      value := p.value;
      previousLeft := None;
      fired := [];
    }

    /** `_handleMeasure` for the layout callback of element `e`. */
    method HandleMeasure(e: Element, s: Size)
      requires Valid()
      modifies this
      ensures Valid()
      ensures CurrentLayout() == Measure(old(CurrentLayout()), e, s)
      ensures props == old(props) && value == old(value)
      ensures previousLeft == old(previousLeft) && fired == old(fired)
    {
      var current := match e
        case Container => containerCache
        case Track => trackCache
        case Thumb => thumbCache;
      if current.Some? && s.width == current.value.width && s.height == current.value.height {
        return;
      }
      match e {
        case Container => containerCache := Some(s);
        case Track => trackCache := Some(s);
        case Thumb => thumbCache := Some(s);
      }
      if containerCache.Some? && trackCache.Some? && thumbCache.Some? {
        containerSize := containerCache.value;
        trackSize := trackCache.value;
        thumbSize := thumbCache.value;
        allMeasured := true;
      }
      MeasurePreservesValid(old(CurrentLayout()), e, s);
    }

    /** `_fireChangeEvent`: invoke the callback of that kind, if the parent gave one,
        with the current value. */
    method FireChangeEvent(kind: EventKind)
      modifies this`fired
      ensures fired == old(fired) + (if kind in props.handlers then [Fired(kind, value)] else [])
    {
      if kind in props.handlers {
        fired := fired + [Fired(kind, value)];
      }
    }

    /** `_handleStartShouldSetPanResponder`: a drag starts only on a touch inside the thumb's
        touch rectangle. */
    method StartShouldSetPanResponder(locationX: real, locationY: real) returns (claim: bool)
      requires props.minimumValue < props.maximumValue
      ensures claim <==> ThumbHitTest(props, allMeasured, containerSize, thumbSize, value, locationX, locationY)
      ensures !allMeasured ==> !claim
    {
      var rect := ThumbTouchRect(props, allMeasured, containerSize, thumbSize, value);
      claim := rect.Some? && ContainsPoint(rect.value, locationX, locationY);
    }

    /** `_handleMoveShouldSetPanResponder`: a mere move over the thumb never claims the gesture. */
    method MoveShouldSetPanResponder() returns (claim: bool)
      ensures !claim
    {
      claim := false;
    }

    /** `_handlePanResponderRequestEnd`: the slider never yields a drag in progress. */
    method PanResponderRequestEnd() returns (allow: bool)
      ensures !allow
    {
      allow := false;
    }

    /** `_handlePanResponderGrant`: anchor the drag at the thumb's current offset and fire
        `onSlidingStart`. */
    method PanResponderGrant()
      requires props.minimumValue < props.maximumValue
      modifies this
      ensures CurrentLayout() == old(CurrentLayout()) && props == old(props) && value == old(value)
      ensures previousLeft == Some(ThumbLeft(props, containerSize, thumbSize, value))
      ensures fired == old(fired) +
                (if SlidingStart in props.handlers then [Fired(SlidingStart, value)] else [])
    {
      previousLeft := Some(ThumbLeft(props, containerSize, thumbSize, value));
      FireChangeEvent(SlidingStart);
    }

    /** `_handlePanResponderMove`: unless disabled, set the value from the drag and fire
        `onValueChange`. The gesture recognizer only moves a granted drag, so the anchor is
        set; a positive travel range excludes the division by zero (NaN or Infinity) the
        source performs when the container is no wider than the thumb. */
    method PanResponderMove(dx: real)
      requires !props.disabled ==>
                 previousLeft.Some? && TravelRange(containerSize, thumbSize) > 0.0
      modifies this
      ensures CurrentLayout() == old(CurrentLayout()) && props == old(props)
      ensures previousLeft == old(previousLeft)
      ensures props.disabled ==> value == old(value) && fired == old(fired)
      ensures !props.disabled ==>
                && value == GetValue(props, containerSize, thumbSize, previousLeft.value, dx)
                && fired == old(fired) +
                     (if ValueChange in props.handlers then [Fired(ValueChange, value)] else [])
    {
      if props.disabled {
        return;
      }
      value := GetValue(props, containerSize, thumbSize, previousLeft.value, dx);
      FireChangeEvent(ValueChange);
    }

    /** `_handlePanResponderEnd`, on release and on termination alike: unless disabled, set
        the final value from the drag and fire `onSlidingComplete`. */
    method PanResponderEnd(dx: real)
      requires !props.disabled ==>
                 previousLeft.Some? && TravelRange(containerSize, thumbSize) > 0.0
      modifies this
      ensures CurrentLayout() == old(CurrentLayout()) && props == old(props)
      ensures previousLeft == old(previousLeft)
      ensures props.disabled ==> value == old(value) && fired == old(fired)
      ensures !props.disabled ==>
                && value == GetValue(props, containerSize, thumbSize, previousLeft.value, dx)
                && fired == old(fired) +
                     (if SlidingComplete in props.handlers then [Fired(SlidingComplete, value)] else [])
    {
      if props.disabled {
        return;
      }
      value := GetValue(props, containerSize, thumbSize, previousLeft.value, dx);
      FireChangeEvent(SlidingComplete);
    }

    /** `componentWillReceiveProps` followed by the props update: a changed `value` prop is
        applied at once unless transitions are animated, in which case the animation (not
        modelled) moves the value later and it is left as it is now. */
    method ReceiveProps(next: Props)
      modifies this
      ensures props == next
      ensures value == (if old(props).value != next.value && !old(props).animateTransitions
                        then next.value else old(value))
      ensures CurrentLayout() == old(CurrentLayout())
      ensures previousLeft == old(previousLeft) && fired == old(fired)
    {
      if props.value != next.value {
        if !props.animateTransitions {
          value := next.value;
        }
      }
      props := next;
    }
  }

  // ---------------------------------------------------------------------------
  // Worked scenarios
  // ---------------------------------------------------------------------------

  /** Domain [0, 1], container 300 wide, thumb 20 wide: a drag of 140 px from the start lands
      half-way. With domain [0, 100] and step 10, the offset at ratio 0.44 snaps to 40. */
  lemma DragScenarios()
    ensures GetValue(DefaultProps(), Size(300.0, 40.0), Size(20.0, 20.0), 0.0, 140.0) == 0.5
    ensures GetValue(DefaultProps().(maximumValue := 100.0, step := 10.0),
                     Size(300.0, 40.0), Size(20.0, 20.0), 0.0, 123.2) == 40.0
  {
    assert Round((123.2 / 280.0 * 100.0) / 10.0) == 4;
  }
}
