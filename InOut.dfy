/**
 * In/out ranges drawn on the video scrub bar, and the collection that
 * selects the active range and hit-tests a tap against the drawn ranges.
 *
 * Coordinates and times are `real`: the source only multiplies and compares
 * them, so the floating-point rounding of `CGFloat`/`Float` is not modelled.
 */
module InOut {

  datatype Option<T> = None | Some(value: T)

  /** A drawing rectangle (a `CGRect`) in the scrub bar's coordinates. */
  datatype Rect = Rect(x: real, y: real, width: real, height: real) {
    function MaxX(): real { x + width }
    function MidY(): real { y + height / 2.0 }
  }

  /** The horizontal pixel extent a range cached on its latest draw. */
  datatype Span = Span(minX: real, maxX: real) {
    predicate Contains(p: real) { minX <= p <= maxX }
  }

  /** A play sequence: start and end of a range, in seconds. */
  datatype PlaySequence = PlaySequence(start: real, end: real)

  /** The two fill colours a range is painted with. */
  datatype ColorState = Active | Inactive

  /** One fill painted by a draw: the rectangle and its colour. */
  datatype Fill = Fill(rect: Rect, color: ColorState)

  /** Share of the bar's height that a range's fill band takes. */
  const FillLineHeightCoefficient: real := 0.7

  function Abs(x: real): real { if x < 0.0 then -x else x }

  function ColorFor(active: bool): ColorState { if active then Active else Inactive }

  /**
   * The band a range with fractional bounds `from`/`to` fills inside `rect`:
   * it spans from `from` to `to` of the bar's width, takes 70% of its height
   * and is centred on the bar's vertical middle.
   */
  function FillRect(from: real, to: real, rect: Rect): (fill: Rect)
    ensures fill.x == from * rect.width
    ensures fill.MaxX() == to * rect.width
    ensures fill.height == FillLineHeightCoefficient * rect.height
    ensures fill.MidY() == rect.MidY()
  {
    var x := from * rect.width;
    var height := rect.height * FillLineHeightCoefficient;
    var y := rect.MidY() - height / 2.0;
    var width := to * rect.width - x;
    Rect(x, y, width, height)
  }

  /** A range whose bounds lie inside [0, 1] in order is filled inside the bar. */
  lemma FillInsideBar(from: real, to: real, rect: Rect)
    requires 0.0 <= from <= to <= 1.0 && 0.0 <= rect.width
    ensures 0.0 <= FillRect(from, to, rect).x <= FillRect(from, to, rect).MaxX() <= rect.width
  {
  }

  /** Scaling by a non-negative factor keeps order. */
  lemma ScaleMonotone(a: real, b: real, w: real)
    requires a <= b && 0.0 <= w
    ensures a * w <= b * w
  {
    assert b * w - a * w == (b - a) * w;
  }

  /**
   * One in/out range: fixed fractional bounds, the pixel extent cached by its
   * latest draw, and whether it is the active range (which decides its colour).
   */
  class InOutVideoRange {
    const from: real
    const to: real
    var bounds: Option<Span>
    var fillColor: ColorState
    var isActive: bool

    /** The fill colour always mirrors `isActive`. */
    ghost predicate Valid()
      reads this`fillColor, this`isActive
    {
      fillColor == ColorFor(isActive)
    }

    /** The cached extent is this range's bounds scaled to a bar `width` wide. */
    ghost predicate DrawnAt(width: real)
      reads this`bounds
    {
      bounds == Some(Span(from * width, to * width))
    }

    /** A new range is inactive and has never been drawn. */
    constructor (from: real, to: real)
      ensures this.from == from && this.to == to
      ensures bounds == None && !isActive && Valid()
    {
      this.from := from;
      this.to := to;
      bounds := None;
      fillColor := Inactive;
      isActive := false;
    }

    /** Assigning `isActive`; its observer recolours the range. */
    method SetIsActive(active: bool)
      modifies this`isActive, this`fillColor
      ensures isActive == active && Valid()
    {
      isActive := active;
      fillColor := ColorFor(isActive);
    }

    /**
     * Paints the range into `rect` and caches its pixel extent for hit-testing.
     * Returns what was painted.
     */
    method Draw(rect: Rect) returns (painted: Fill)
      modifies this`bounds
      ensures painted == Fill(FillRect(from, to, rect), fillColor)
      ensures DrawnAt(rect.width)
    {
      var fill := FillRect(from, to, rect);
      assert fill.x == from * rect.width;
      assert fill.MaxX() == to * rect.width;
      bounds := Some(Span(fill.x, fill.x + fill.width));
      painted := Fill(fill, fillColor);
    }

    /**
     * How far the tap at `x` is from the drawn range: none before the first
     * draw, zero on a hit, otherwise the gap to the nearer edge.
     */
    function Distance(x: real): (d: Option<real>)
      reads this`bounds
      ensures d.None? <==> bounds.None?
      ensures d.Some? ==> 0.0 <= d.value
      ensures d == Some(0.0) <==> bounds.Some? && bounds.value.minX <= x <= bounds.value.maxX
    {
      match bounds
      case None => None
      case Some(span) =>
        if span.minX <= x && x <= span.maxX then Some(0.0)
        else if x < span.minX then Some(span.minX - x)
        else Some(x - span.maxX)
    }

    /** The range's bounds scaled to a media of `duration` seconds. */
    function GetPlaySequence(duration: real): (s: PlaySequence)
      ensures s.end - s.start == (to - from) * duration
      ensures from <= to && 0.0 <= duration ==> s.start <= s.end
      ensures 0.0 <= from && to <= 1.0 && 0.0 <= duration ==> 0.0 <= s.start && s.end <= duration
    {
      assert 0.0 <= from && 0.0 <= duration ==> 0.0 <= from * duration by {
        if 0.0 <= from && 0.0 <= duration { ScaleMonotone(0.0, from, duration); }
      }
      assert to <= 1.0 && 0.0 <= duration ==> to * duration <= duration by {
        if to <= 1.0 && 0.0 <= duration { ScaleMonotone(to, 1.0, duration); }
      }
      assert from <= to && 0.0 <= duration ==> from * duration <= to * duration by {
        if from <= to && 0.0 <= duration { ScaleMonotone(from, to, duration); }
      }
      PlaySequence(from * duration, to * duration)
    }
  }

  /**
   * A drawn range's distance is the distance from `x` to the nearest point of
   * its extent: no point of the extent is closer, and the extent's point
   * nearest to `x` is exactly that far away.
   */
  lemma DistanceToExtent(r: InOutVideoRange, x: real)
    requires r.bounds.Some? && r.bounds.value.minX <= r.bounds.value.maxX
    ensures r.Distance(x).Some?
    ensures forall p :: r.bounds.value.Contains(p) ==> r.Distance(x).value <= Abs(x - p)
    ensures var span := r.bounds.value;
            var nearest := if x < span.minX then span.minX else if x > span.maxX then span.maxX else x;
            r.Distance(x).value == Abs(x - nearest)
  {
  }

  /** A range drawn inverted (`from` right of `to`) can never be hit. */
  lemma InvertedNeverHit(r: InOutVideoRange, x: real)
    requires r.bounds.Some? && r.bounds.value.maxX < r.bounds.value.minX
    ensures r.Distance(x).Some? && 0.0 < r.Distance(x).value
  {
  }

  /** The ordered ranges shown on one scrub bar. */
  class InOutVideoRangeCollection {
    const ranges: seq<InOutVideoRange>

    /** Every range's colour mirrors its `isActive`. */
    ghost predicate Valid()
      reads ranges`fillColor, ranges`isActive
    {
      forall i :: 0 <= i < |ranges| ==> ranges[i].Valid()
    }

    /** No two different ranges are active at once. */
    ghost predicate AtMostOneActive()
      reads ranges`isActive
    {
      forall i, j :: 0 <= i < |ranges| && 0 <= j < |ranges| && ranges[i].isActive && ranges[j].isActive ==> ranges[i] == ranges[j]
    }

    /** Every range has been drawn. */
    ghost predicate AllDrawn()
      reads ranges`bounds
    {
      forall i :: 0 <= i < |ranges| ==> ranges[i].bounds.Some?
    }

    /** Some range has been drawn, so a tap has a nearest range. */
    ghost predicate AnyDrawn()
      reads ranges`bounds
    {
      exists i :: 0 <= i < |ranges| && ranges[i].bounds.Some?
    }

    constructor (collection: seq<InOutVideoRange>)
      ensures ranges == collection
    {
      ranges := collection;
    }

    /** Draws every range, in order, into the same rectangle. */
    method Draw(rect: Rect) returns (painted: seq<Fill>)
      modifies ranges`bounds
      ensures AllDrawn()
      ensures forall i :: 0 <= i < |ranges| ==> ranges[i].DrawnAt(rect.width)
      ensures |painted| == |ranges|
      ensures forall i :: 0 <= i < |ranges| ==>
        painted[i] == Fill(FillRect(ranges[i].from, ranges[i].to, rect), ranges[i].fillColor)
    {
      painted := [];
      var i := 0;
      while i < |ranges|
        invariant 0 <= i <= |ranges|
        invariant |painted| == i
        invariant forall j :: 0 <= j < i ==> ranges[j].DrawnAt(rect.width)
        invariant forall j :: 0 <= j < i ==>
          painted[j] == Fill(FillRect(ranges[j].from, ranges[j].to, rect), ranges[j].fillColor)
      {
        var fill := ranges[i].Draw(rect);
        painted := painted + [fill];
        i := i + 1;
      }
    }

    /**
     * Makes `range` the active one: afterwards a range is active exactly when
     * it is `range` itself (identity, not equal bounds).
     */
    method SetActive(range: InOutVideoRange)
      requires Valid()
      modifies ranges`isActive, ranges`fillColor
      ensures Valid() && AtMostOneActive()
      ensures forall i :: 0 <= i < |ranges| ==> ranges[i].isActive == (ranges[i] == range)
    {
      var i := 0;
      while i < |ranges|
        invariant 0 <= i <= |ranges|
        invariant Valid()
        invariant forall j :: 0 <= j < i ==> ranges[j].isActive == (ranges[j] == range)
      {
        if ranges[i] == range {
          ranges[i].SetIsActive(true);
        } else {
          ranges[i].SetIsActive(false);
        }
        i := i + 1;
      }
    }

    /**
     * `ranges[k]` holds the tap's distance `d`, and no later range among the
     * first `n` does.
     */
    ghost predicate LastWithDistance(k: int, n: int, x: real, d: real)
      reads ranges`bounds
    {
      0 <= k < n <= |ranges| && ranges[k].Distance(x) == Some(d) &&
      forall j :: k < j < n ==> ranges[j].Distance(x) != Some(d)
    }

    /**
     * `ranges[k]` is drawn and no drawn range is nearer to `x`; every later
     * drawn range is strictly farther.
     */
    ghost predicate IsLastNearest(k: int, x: real)
      reads ranges`bounds
    {
      0 <= k < |ranges| && ranges[k].Distance(x).Some? &&
      forall j :: 0 <= j < |ranges| && ranges[j].Distance(x).Some? ==>
        ranges[k].Distance(x).value <= ranges[j].Distance(x).value &&
        (k < j ==> ranges[k].Distance(x).value < ranges[j].Distance(x).value)
    }

    /**
     * The drawn range nearest to the tap at `x`. Ranges are keyed by their
     * distance, so among equally near ranges the later one wins; there is
     * none when no range has been drawn.
     */
    method LookupForNearestRange(x: real) returns (nearest: InOutVideoRange?)
      ensures nearest == null <==> !AnyDrawn()
      ensures nearest != null ==> exists k :: IsLastNearest(k, x) && ranges[k] == nearest
    {
      var distanceMap: map<real, InOutVideoRange> := map[];
      var i := 0;
      while i < |ranges|
        invariant 0 <= i <= |ranges|
        invariant forall d :: d in distanceMap ==>
          exists k :: LastWithDistance(k, i, x, d) && distanceMap[d] == ranges[k]
        invariant forall j :: 0 <= j < i && ranges[j].Distance(x).Some? ==>
          ranges[j].Distance(x).value in distanceMap
      {
        var distance := ranges[i].Distance(x);
        if distance.Some? {
          forall d | d in distanceMap && d != distance.value
            ensures exists k :: LastWithDistance(k, i + 1, x, d) && distanceMap[d] == ranges[k]
          {
            var k :| LastWithDistance(k, i, x, d) && distanceMap[d] == ranges[k];
            assert LastWithDistance(k, i + 1, x, d);
          }
          assert LastWithDistance(i, i + 1, x, distance.value);
          distanceMap := distanceMap[distance.value := ranges[i]];
        } else {
          forall d | d in distanceMap
            ensures exists k :: LastWithDistance(k, i + 1, x, d) && distanceMap[d] == ranges[k]
          {
            var k :| LastWithDistance(k, i, x, d) && distanceMap[d] == ranges[k];
            assert LastWithDistance(k, i + 1, x, d);
          }
        }
        i := i + 1;
      }

      // the entry whose key is nearest to zero, in the map's own order
      var keys := distanceMap.Keys;
      var closest: Option<real> := None;
      while keys != {}
        invariant keys <= distanceMap.Keys
        invariant closest.None? ==> keys == distanceMap.Keys
        invariant closest.Some? ==> closest.value in distanceMap
        invariant closest.Some? ==>
          forall d :: d in distanceMap && d !in keys ==> Abs(closest.value - 0.0) <= Abs(d - 0.0)
        decreases keys
      {
        var d :| d in keys;
        if closest.None? || Abs(d - 0.0) < Abs(closest.value - 0.0) {
          closest := Some(d);
        }
        keys := keys - {d};
      }

      match closest
      case None =>
        nearest := null;
      case Some(c) =>
        nearest := distanceMap[c];
        ghost var k :| LastWithDistance(k, |ranges|, x, c) && distanceMap[c] == ranges[k];
        assert IsLastNearest(k, x);
    }

    /** The first range, if there is one. */
    function First(): (r: InOutVideoRange?)
      ensures r == null <==> |ranges| == 0
      ensures r != null ==> r == ranges[0]
    {
      if |ranges| == 0 then null else ranges[0]
    }
  }

  /**
   * The nearest-range rule picks one position: two positions that both hold a
   * nearest range with no later range as near are the same position.
   */
  lemma LastNearestUnique(c: InOutVideoRangeCollection, k1: int, k2: int, x: real)
    requires c.IsLastNearest(k1, x) && c.IsLastNearest(k2, x)
    ensures k1 == k2
  {
  }
}
