/** Axis-aligned rectangles, as the host's `Rect` value (position plus size).
    Coordinates are reals: halving a width or height is exact. */
module Geometry {

  datatype Rect = Rect(x: real, y: real, width: real, height: real)

  /** The half-open region [x, x + width) x [y, y + height) a rectangle covers.
      A rectangle with a negative or zero extent covers no point. This is the
      model's own notion of area, used to state disjointness and cover. */
  predicate InRegion(r: Rect, px: real, py: real)
  {
    r.x <= px < r.x + r.width && r.y <= py < r.y + r.height
  }

  /** No point lies in both rectangles. */
  ghost predicate Disjoint(a: Rect, b: Rect)
  {
    forall px: real, py: real :: !(InRegion(a, px, py) && InRegion(b, px, py))
  }

  /** The two parts together cover exactly the points of the whole. */
  ghost predicate Covers(whole: Rect, a: Rect, b: Rect)
  {
    forall px: real, py: real ::
      InRegion(whole, px, py) <==> (InRegion(a, px, py) || InRegion(b, px, py))
  }

  /** `a` and `b` split `whole` into two pieces with no point in common. */
  ghost predicate Partitions(whole: Rect, a: Rect, b: Rect)
  {
    Disjoint(a, b) && Covers(whole, a, b)
  }
}
