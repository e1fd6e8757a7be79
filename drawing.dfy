/** The value types of the drawing layer the widget works with: points, sizes and the
    integer `Math.Max` / `Math.Min` it clamps with. Coordinates are unbounded integers. */
module Drawing {

  /** A location, in whichever coordinate space the caller says (local, parent or screen). */
  datatype Point = Point(x: int, y: int)

  /** A width and a height. Nothing forces them to be positive. */
  datatype Size = Size(width: int, height: int)

  /** The larger of two integers. */
  function Max(a: int, b: int): (m: int)
    ensures m >= a && m >= b
    ensures m == a || m == b
  {
    if a >= b then a else b
  }

  /** The smaller of two integers. */
  function Min(a: int, b: int): (m: int)
    ensures m <= a && m <= b
    ensures m == a || m == b
  {
    if a <= b then a else b
  }
}
