/** Axis-aligned rectangles and the overlap test the ball is checked with
    against each paddle. */
module Geometry {

  /** A rectangle given by its top-left corner and its size, in canvas units. */
  datatype Rect = Rect(x: real, y: real, width: real, height: real)

  /** The AABB test of the game: every comparison is strict, so two rectangles
      that only share an edge do not collide. */
  predicate Collides(a: Rect, b: Rect) {
    a.x < b.x + b.width &&
    a.x + a.width > b.x &&
    a.y < b.y + b.height &&
    a.y + a.height > b.y
  }

  /** Reference definition: the point (px, py) lies strictly inside r. */
  ghost predicate Inside(r: Rect, px: real, py: real) {
    r.x < px < r.x + r.width && r.y < py < r.y + r.height
  }

  function Max(a: real, b: real): (m: real)
    ensures m >= a && m >= b && (m == a || m == b)
  {
    if a >= b then a else b
  }

  function Min(a: real, b: real): (m: real)
    ensures m <= a && m <= b && (m == a || m == b)
  {
    if a <= b then a else b
  }

  lemma CollidesSymmetric(a: Rect, b: Rect)
    ensures Collides(a, b) == Collides(b, a)
  {
  }

  /** Rectangles that touch along a vertical or a horizontal edge do not collide. */
  lemma TouchingEdgesDoNotCollide(a: Rect, b: Rect)
    requires a.x + a.width == b.x || b.x + b.width == a.x ||
             a.y + a.height == b.y || b.y + b.height == a.y
    ensures !Collides(a, b) && !Collides(b, a)
  {
  }

  /** For rectangles of positive size, the test holds exactly when the two
      interiors share a point. */
  lemma CollidesIffCommonInteriorPoint(a: Rect, b: Rect)
    requires a.width > 0.0 && a.height > 0.0 && b.width > 0.0 && b.height > 0.0
    ensures Collides(a, b) <==> exists px, py :: Inside(a, px, py) && Inside(b, px, py)
  {
    if Collides(a, b) {
      var px := (Max(a.x, b.x) + Min(a.x + a.width, b.x + b.width)) / 2.0;
      var py := (Max(a.y, b.y) + Min(a.y + a.height, b.y + b.height)) / 2.0;
      assert Inside(a, px, py) && Inside(b, px, py);
    }
  }
}
