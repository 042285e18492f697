/** Axis-aligned rectangles, the only shape the game knows. */
module Geometry {

  /** A rectangle with its lower-left corner at (x, y). */
  datatype Rect = Rect(x: real, y: real, width: real, height: real)

  /** Strict overlap of two rectangles: the interiors intersect on both axes, so
      rectangles that only touch along an edge do not overlap. */
  predicate Overlaps(a: Rect, b: Rect)
  {
    && a.x < b.x + b.width
    && a.x + a.width > b.x
    && a.y < b.y + b.height
    && a.y + a.height > b.y
  }

  /** Overlap does not depend on which rectangle asks. */
  lemma OverlapsSymmetric(a: Rect, b: Rect)
    ensures Overlaps(a, b) <==> Overlaps(b, a)
  {
  }
}
