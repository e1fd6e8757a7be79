/** The geometry of the two gestures, as pure functions of the press snapshot and the current
    pointer: where a drag puts the control, and what rectangle a resize gives it. */
module Manipulation {
  import opened Drawing
  import opened Zones

  /** The smallest width or height a resize rule produces (before the parent clip). */
  const MinimumSize: int := 20

  /** The control's container: absent, or present with the `Width` and `Height` the code reads
      from it (its outer size, while locations are relative to its client area). */
  datatype ParentInfo = NoParent | Bounds(width: int, height: int)

  /** A location together with a size. */
  datatype Rect = Rect(location: Point, size: Size)

  /** `max(0, min(limit, v))`: pull `v` into `[0, limit]`; with a negative limit the lower
      bound wins and the result is 0. */
  function ClampAxis(v: int, limit: int): (r: int)
    ensures r >= 0
    ensures 0 <= v <= limit ==> r == v
    ensures v < 0 ==> r == 0
    ensures v > limit ==> r == Max(0, limit)
  {
    Max(0, Min(limit, v))
  }

  /** Where a drag puts the control: the parent-relative pointer minus the press offset, each
      axis clamped so that the control starts inside the parent's size and, when it fits, ends inside
      it too. */
  function MoveTarget(pointer: Point, dragStart: Point, size: Size, parentWidth: int, parentHeight: int): (p: Point)
    ensures p.x >= 0 && p.y >= 0
    ensures size.width <= parentWidth ==> p.x + size.width <= parentWidth
    ensures size.height <= parentHeight ==> p.y + size.height <= parentHeight
    ensures 0 <= pointer.x - dragStart.x <= parentWidth - size.width ==> p.x == pointer.x - dragStart.x
    ensures 0 <= pointer.y - dragStart.y <= parentHeight - size.height ==> p.y == pointer.y - dragStart.y
    ensures pointer.x - dragStart.x < 0 ==> p.x == 0
    ensures pointer.y - dragStart.y < 0 ==> p.y == 0
    ensures pointer.x - dragStart.x > parentWidth - size.width ==> p.x == Max(0, parentWidth - size.width)
    ensures pointer.y - dragStart.y > parentHeight - size.height ==> p.y == Max(0, parentHeight - size.height)
  {
    var offset := Point(pointer.x - dragStart.x, pointer.y - dragStart.y);
    Point(ClampAxis(offset.x, parentWidth - size.width), ClampAxis(offset.y, parentHeight - size.height))
  }

  /** What a resize does along one axis: leave it, move the near edge (left or top: the start
      and the extent both change) or move the far edge (right or bottom: only the extent). */
  datatype EdgeRule = Keep | NearEdge | FarEdge

  /** The horizontal rule a direction selects, through `HasFlag(Left)`, else `HasFlag(Right)`.
      Because the decoding tests ordinal bits, TopLeft and TopRight get the right-edge rule
      and BottomRight gets none. */
  function HorizontalRuleOf(d: ResizeDirection): (r: EdgeRule)
    ensures r == NearEdge <==> d == Left || d == BottomLeft
    ensures r == FarEdge <==> d == Right || d == TopLeft || d == TopRight
    ensures r == Keep <==> d == None || d == Top || d == Bottom || d == BottomRight
  {
    if HasFlag(d, Left) then NearEdge
    else if HasFlag(d, Right) then FarEdge
    else Keep
  }

  /** The vertical rule a direction selects, through `HasFlag(Top)`, else `HasFlag(Bottom)`.
      Left and BottomLeft get the top-edge rule, TopRight the bottom-edge rule, BottomRight none. */
  function VerticalRuleOf(d: ResizeDirection): (r: EdgeRule)
    ensures r == NearEdge <==> d == Top || d == Left || d == TopLeft || d == BottomLeft
    ensures r == FarEdge <==> d == Bottom || d == TopRight
    ensures r == Keep <==> d == None || d == Right || d == BottomRight
  {
    if HasFlag(d, Top) then NearEdge
    else if HasFlag(d, Bottom) then FarEdge
    else Keep
  }

  /** One axis of a resize: from the original start and extent, and the pointer's travel along
      the axis, the new start and extent. The near edge follows the pointer (not past 0) while
      the far edge stays put; the far edge follows the pointer; neither rule goes below the
      minimum extent. */
  function AxisSpan(rule: EdgeRule, start: int, extent: int, delta: int): (r: (int, int))
    ensures rule == Keep ==> r == (start, extent)
    ensures rule == NearEdge ==>
      && r.0 >= 0 && r.1 >= MinimumSize
      && (start + delta >= 0 ==> r.0 == start + delta)
      && (start + delta < 0 ==> r.0 == 0)
      && (extent - delta >= MinimumSize ==> r.1 == extent - delta)
      && (extent - delta < MinimumSize ==> r.1 == MinimumSize)
      && (start + delta >= 0 && extent - delta >= MinimumSize ==> r.0 + r.1 == start + extent)
    ensures rule == FarEdge ==>
      && r.0 == start && r.1 >= MinimumSize
      && (extent + delta >= MinimumSize ==> r.1 == extent + delta)
      && (extent + delta < MinimumSize ==> r.1 == MinimumSize)
  {
    match rule
    case Keep => (start, extent)
    case NearEdge => (Max(0, start + delta), Max(MinimumSize, extent - delta))
    case FarEdge => (start, Max(MinimumSize, extent + delta))
  }

  /** The rectangle the rules give, before the parent clip: each axis follows the rule the
      direction selects for it, and an axis with no rule keeps its original start and extent. */
  function RuleRect(d: ResizeDirection, original: Rect, delta: Point): Rect
  {
    var h := AxisSpan(HorizontalRuleOf(d), original.location.x, original.size.width, delta.x);
    var v := AxisSpan(VerticalRuleOf(d), original.location.y, original.size.height, delta.y);
    Rect(Point(h.0, v.0), Size(h.1, v.1))
  }

  /** The parent clip: keep the location, and cut the width and height so that the right and
      bottom edges do not pass the parent's. A location past the parent's edge makes the
      clipped extent negative. */
  function ClipToParent(r: Rect, parentWidth: int, parentHeight: int): (c: Rect)
    ensures c.location == r.location
    ensures c.size.width <= r.size.width && c.size.width <= parentWidth - r.location.x
    ensures c.size.height <= r.size.height && c.size.height <= parentHeight - r.location.y
    ensures c.size.width == r.size.width || c.size.width == parentWidth - r.location.x
    ensures c.size.height == r.size.height || c.size.height == parentHeight - r.location.y
  {
    Rect(r.location, Size(Min(r.size.width, parentWidth - r.location.x),
                          Min(r.size.height, parentHeight - r.location.y)))
  }

  /** The rectangle a resize gives: the rules applied to the press-time rectangle with the
      pointer's travel since the press, then clipped to the parent. The prose of the result:
      a coordinate a rule touches is non-negative, one no rule touches is the original, the
      right and bottom edges never pass the parent's, and each final extent is the rule's
      extent unless that would pass the parent's edge, in which case the edge sits on it. */
  function ResizeTarget(d: ResizeDirection, original: Rect, resizeStart: Point, pointer: Point,
                        parentWidth: int, parentHeight: int): (r: Rect)
    ensures r.location == RuleRect(d, original, Point(pointer.x - resizeStart.x, pointer.y - resizeStart.y)).location
    ensures HorizontalRuleOf(d) == Keep ==> r.location.x == original.location.x
    ensures VerticalRuleOf(d) == Keep ==> r.location.y == original.location.y
    ensures HorizontalRuleOf(d) == NearEdge ==> r.location.x >= 0
    ensures VerticalRuleOf(d) == NearEdge ==> r.location.y >= 0
    ensures HorizontalRuleOf(d) == FarEdge ==> r.location.x == original.location.x
    ensures VerticalRuleOf(d) == FarEdge ==> r.location.y == original.location.y
    ensures r.location.x + r.size.width <= parentWidth
    ensures r.location.y + r.size.height <= parentHeight
    ensures var u := RuleRect(d, original, Point(pointer.x - resizeStart.x, pointer.y - resizeStart.y));
      r.size.width <= u.size.width &&
      (r.size.width == u.size.width || r.location.x + r.size.width == parentWidth)
    ensures var u := RuleRect(d, original, Point(pointer.x - resizeStart.x, pointer.y - resizeStart.y));
      r.size.height <= u.size.height &&
      (r.size.height == u.size.height || r.location.y + r.size.height == parentHeight)
  {
    var delta := Point(pointer.x - resizeStart.x, pointer.y - resizeStart.y);
    ClipToParent(RuleRect(d, original, delta), parentWidth, parentHeight)
  }

  /** The effect of each direction, as the bit-test decoding actually makes it (pre-clip
      rectangle `u`, original rectangle `o`). */
  lemma DirectionEffects(d: ResizeDirection, o: Rect, delta: Point)
    ensures var u := RuleRect(d, o, delta);
      && (d == None ==> u == o)
      && (d == BottomRight ==> u == o)
      && (d == Top ==> u.location.x == o.location.x && u.size.width == o.size.width)
      && (d == Bottom ==> u.location == o.location && u.size.width == o.size.width)
      && (d == Right ==> u.location == o.location && u.size.height == o.size.height)
      && (d == Top || d == Left || d == TopLeft || d == BottomLeft ==>
            u.location.y == Max(0, o.location.y + delta.y) &&
            u.size.height == Max(MinimumSize, o.size.height - delta.y))
      && (d == Bottom || d == TopRight ==>
            u.location.y == o.location.y &&
            u.size.height == Max(MinimumSize, o.size.height + delta.y))
      && (d == Left || d == BottomLeft ==>
            u.location.x == Max(0, o.location.x + delta.x) &&
            u.size.width == Max(MinimumSize, o.size.width - delta.x))
      && (d == Right || d == TopLeft || d == TopRight ==>
            u.location.x == o.location.x &&
            u.size.width == Max(MinimumSize, o.size.width + delta.x))
  {
  }

  /** Dimensions a rule touches are at least the minimum before the clip. */
  lemma RuleRectMinimum(d: ResizeDirection, o: Rect, delta: Point)
    ensures HorizontalRuleOf(d) != Keep ==> RuleRect(d, o, delta).size.width >= MinimumSize
    ensures VerticalRuleOf(d) != Keep ==> RuleRect(d, o, delta).size.height >= MinimumSize
  {
  }

  /** The minimum does not survive the clip: a left-edge drag far to the right pushes the
      location past the parent's right edge, and the clipped width goes negative. */
  lemma ClipCanBreakMinimum()
    ensures var r := ResizeTarget(Left, Rect(Point(0, 0), Size(100, 100)), Point(0, 50), Point(500, 50), 400, 300);
      r == Rect(Point(500, 0), Size(-100, 100))
  {
  }
}
