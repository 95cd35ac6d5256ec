/** Plane geometry of the maze: points, rectangles in ggez's left/top/width/height
    form, the rectangle overlap test and the squared distance used by the arming gate.
    Coordinates are exact reals in place of the game's f32 values. */
module Geometry {

  /** A point of the window's coordinate space (ggez's Point2<f32>). */
  datatype Point = Point(x: real, y: real)

  /** An axis-aligned rectangle given by its left edge, top edge, width and height
      (ggez's graphics::Rect::new(x, y, w, h)). */
  datatype Rect = Rect(left: real, top: real, w: real, h: real) {

    function Right(): real { left + w }

    function Bottom(): real { top + h }

    /** The closed rectangle contains q (its edges included). */
    predicate Contains(q: Point) {
      left <= q.x <= Right() && top <= q.y <= Bottom()
    }

    /** Width and height are not negative, as for every rectangle the game builds. */
    predicate Proper() { w >= 0.0 && h >= 0.0 }
  }

  function Abs(r: real): (a: real)
    ensures a >= 0.0 && (a == r || a == -r)
  {
    if r < 0.0 then -r else r
  }

  /** The overlap test of ggez's Rect::overlaps. It is INCLUSIVE: two rectangles
      overlap as soon as their closed areas meet, so rectangles that only touch
      along an edge or at a corner overlap. This is the single place where the
      model makes that choice. */
  predicate Overlaps(a: Rect, b: Rect) {
    a.left <= b.Right() && a.Right() >= b.left &&
    a.top <= b.Bottom() && a.Bottom() >= b.top
  }

  /** Overlap means the two closed rectangles share a point. */
  lemma OverlapsIffSharedPoint(a: Rect, b: Rect)
    requires a.Proper() && b.Proper()
    ensures Overlaps(a, b) <==> exists q :: a.Contains(q) && b.Contains(q)
  {
    if Overlaps(a, b) {
      var q := Point(if a.left < b.left then b.left else a.left,
                     if a.top < b.top then b.top else a.top);
      assert a.Contains(q) && b.Contains(q);
    }
  }

  /** The square of the Euclidean distance between p and q. */
  function SqDist(p: Point, q: Point): (d: real)
    ensures d >= 0.0
  {
    (p.x - q.x) * (p.x - q.x) + (p.y - q.y) * (p.y - q.y)
  }

  /** For any non-negative square root s of d, "s < 10" holds exactly when
      "d < 100": comparing the squared distance with 100 decides the same as
      comparing the distance itself with 10. */
  lemma SqrtThreshold(d: real, s: real)
    requires s >= 0.0 && s * s == d
    ensures s < 10.0 <==> d < 100.0
  {
    if s < 10.0 {
      assert s * s <= s * 10.0;
      assert s * 10.0 < 100.0;
    } else {
      assert s * s >= s * 10.0;
      assert s * 10.0 >= 100.0;
    }
  }
}
