/**
 * Plane geometry in layout points, over exact reals.  Every coordinate the
 * timeline computes is a sum, difference or simple fraction of its inputs,
 * so no floating-point rounding is involved.
 */
module Geometry {
  /** A `CGPoint`. */
  datatype Point = Point(x: real, y: real)

  /** A `CGSize`. */
  datatype Size = Size(width: real, height: real)

  /** A `CGRect`, origin at its top-left corner (y grows downwards). */
  datatype Rect = Rect(x: real, y: real, width: real, height: real)
  {
    function Top(): real { y }
    function Bottom(): real { y + height }
    function Left(): real { x }
    function Right(): real { x + width }
  }

  /** `p` lies in the box [0, s.width] x [0, s.height]. */
  predicate InBox(p: Point, s: Size)
  {
    0.0 <= p.x <= s.width && 0.0 <= p.y <= s.height
  }

  /** `p` lies in the closed rectangle `r`. */
  predicate InRect(p: Point, r: Rect)
  {
    r.Left() <= p.x <= r.Right() && r.Top() <= p.y <= r.Bottom()
  }
}
