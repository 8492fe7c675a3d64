/** The drop-target test shared by the market, the beef drop and the rice pot. */
module Geometry {
  import opened Wrappers

  /** A bounding client rectangle, read from the target element when the drag ends. */
  datatype Rect = Rect(left: real, top: real, right: real, bottom: real)

  /** Inclusive on all four edges. */
  predicate Inside(r: Rect, x: real, y: real): (b: bool)
    ensures b ==> r.left <= r.right && r.top <= r.bottom
  {
    r.left <= x <= r.right && r.top <= y <= r.bottom
  }

  /** A release point hits the target only if the target element exists and contains the point. */
  predicate Hits(target: Option<Rect>, x: real, y: real): (b: bool)
    ensures target.None? ==> !b
  {
    target.Some? && Inside(target.value, x, y)
  }

  /** The edges belong to the target; a point one unit past any edge does not. */
  lemma EdgesAreInclusive(r: Rect, x: real, y: real)
    requires r.left <= x <= r.right && r.top <= y <= r.bottom
    ensures Hits(Some(r), r.left, y) && Hits(Some(r), r.right, y)
    ensures Hits(Some(r), x, r.top) && Hits(Some(r), x, r.bottom)
    ensures !Hits(Some(r), r.left - 1.0, y) && !Hits(Some(r), r.right + 1.0, y)
    ensures !Hits(Some(r), x, r.top - 1.0) && !Hits(Some(r), x, r.bottom + 1.0)
    ensures !Hits(None, x, y)
  {
  }
}
