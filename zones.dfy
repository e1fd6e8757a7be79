/** Hit-testing: which resize direction a local point selects, how a direction is decoded
    bit by bit, and which cursor a direction shows. */
module Zones {
  import opened Drawing

  /** Thickness of the border band in which a press starts a resize instead of a move. */
  const ResizeMargin: int := 8

  /** The nine hit zones. The source declares them as a plain enum, so each one stands for
      its ordinal (see `Ordinal`), not for a set of edges. */
  datatype ResizeDirection =
    | None | Top | Bottom | Left | Right
    | TopLeft | TopRight | BottomLeft | BottomRight

  /** The enum's underlying value: declaration order, starting at 0. */
  function Ordinal(d: ResizeDirection): (v: bv8)
    ensures v <= 8
    ensures d == None <==> v == 0
  {
    match d
    case None => 0
    case Top => 1
    case Bottom => 2
    case Left => 3
    case Right => 4
    case TopLeft => 5
    case TopRight => 6
    case BottomLeft => 7
    case BottomRight => 8
  }

  /** `Enum.HasFlag`: every bit of the flag's value is set in the direction's value. On this
      non-flags enum that is a test on ordinals, not on edges: `Left` (3) contains `Top` (1). */
  predicate HasFlag(d: ResizeDirection, flag: ResizeDirection)
  {
    Ordinal(d) & Ordinal(flag) == Ordinal(flag)
  }

  /** The four independent, inclusive edge tests of the classifier. */
  predicate NearLeft(p: Point) { p.x <= ResizeMargin }
  predicate NearRight(p: Point, s: Size) { p.x >= s.width - ResizeMargin }
  predicate NearTop(p: Point) { p.y <= ResizeMargin }
  predicate NearBottom(p: Point, s: Size) { p.y >= s.height - ResizeMargin }

  /** Classifies a point in the control's own coordinates, for a control of the given size.
      The result is the first direction, in the order TopLeft, TopRight, BottomLeft, BottomRight,
      Top, Bottom, Left, Right, whose edge tests all hold; None when no edge test holds. On a
      control at most twice the margin wide, left and right both hold and the left-hand
      direction wins. */
  function GetResizeDirection(location: Point, size: Size): (d: ResizeDirection)
    ensures d == None <==>
      ResizeMargin < location.x < size.width - ResizeMargin &&
      ResizeMargin < location.y < size.height - ResizeMargin
    ensures d == TopLeft <==> NearTop(location) && NearLeft(location)
    ensures d == TopRight <==> NearTop(location) && NearRight(location, size) && !NearLeft(location)
    ensures d == BottomLeft <==> NearBottom(location, size) && NearLeft(location) && !NearTop(location)
    ensures d == BottomRight <==>
      NearBottom(location, size) && NearRight(location, size) && !NearTop(location) && !NearLeft(location)
    ensures d == Top <==> NearTop(location) && !NearLeft(location) && !NearRight(location, size)
    ensures d == Bottom <==>
      NearBottom(location, size) && !NearTop(location) && !NearLeft(location) && !NearRight(location, size)
    ensures d == Left <==> NearLeft(location) && !NearTop(location) && !NearBottom(location, size)
    ensures d == Right <==>
      NearRight(location, size) && !NearLeft(location) && !NearTop(location) && !NearBottom(location, size)
  {
    var left := location.x <= ResizeMargin;
    var right := location.x >= size.width - ResizeMargin;
    var top := location.y <= ResizeMargin;
    var bottom := location.y >= size.height - ResizeMargin;
    if top && left then TopLeft
    else if top && right then TopRight
    else if bottom && left then BottomLeft
    else if bottom && right then BottomRight
    else if top then Top
    else if bottom then Bottom
    else if left then Left
    else if right then Right
    else None
  }

  /** Cursor shapes. `Default` is the control's cursor before any idle pointer move sets one;
      the classifier's mapping never yields it. */
  datatype Cursor = Default | Hand | SizeNWSE | SizeNESW | SizeNS | SizeWE

  /** The resize cursor for a direction: the diagonal arrows for the corners, the vertical
      arrow for the top and bottom edges, the horizontal one for the side edges, a hand inside. */
  function GetCursorForDirection(direction: ResizeDirection): (c: Cursor)
    ensures c != Default
    ensures c == Hand <==> direction == None
    ensures c == SizeNWSE <==> direction == TopLeft || direction == BottomRight
    ensures c == SizeNESW <==> direction == TopRight || direction == BottomLeft
    ensures c == SizeNS <==> direction == Top || direction == Bottom
    ensures c == SizeWE <==> direction == Left || direction == Right
  {
    match direction
    case TopLeft | BottomRight => SizeNWSE
    case TopRight | BottomLeft => SizeNESW
    case Top | Bottom => SizeNS
    case Left | Right => SizeWE
    case None => Hand
  }

  /** The cursor shown while idle, read off the point directly: a hand exactly in the interior,
      a vertical arrow on the top or bottom band away from both side bands, a horizontal arrow
      on a side band away from both top and bottom bands, a diagonal arrow in a corner. */
  lemma CursorAtPoint(location: Point, size: Size)
    ensures var c := GetCursorForDirection(GetResizeDirection(location, size));
      && (c == Hand <==>
            ResizeMargin < location.x < size.width - ResizeMargin &&
            ResizeMargin < location.y < size.height - ResizeMargin)
      && (c == SizeNS <==>
            (NearTop(location) || NearBottom(location, size)) &&
            !NearLeft(location) && !NearRight(location, size))
      && (c == SizeWE <==>
            (NearLeft(location) || NearRight(location, size)) &&
            !NearTop(location) && !NearBottom(location, size))
      && (c == SizeNWSE || c == SizeNESW <==>
            (NearTop(location) || NearBottom(location, size)) &&
            (NearLeft(location) || NearRight(location, size)))
  {
  }
}
