/** Circle-against-circle overlap, on the integer centres of sprite rectangles. */
module Collision {
  import opened Config

  datatype Circle = Circle(cx: int, cy: int, radius: int)

  /** The centre coordinate of a box whose low edge is at `low`: a rectangle
      computes it as `low + size // 2`. */
  function Center(low: int, size: nat): (c: int)
    ensures low <= c <= low + size
  {
    low + size / 2
  }

  function SquaredDistance(a: Circle, b: Circle): (d: int)
    ensures d >= 0
  {
    (a.cx - b.cx) * (a.cx - b.cx) + (a.cy - b.cy) * (a.cy - b.cy)
  }

  /** The circles overlap when the squared distance between the centres is
      strictly below the squared sum of the radii. */
  predicate CirclesCollide(a: Circle, b: Circle)
    ensures CirclesCollide(a, b) && a.radius + b.radius >= 0 ==>
              Abs(a.cx - b.cx) < a.radius + b.radius && Abs(a.cy - b.cy) < a.radius + b.radius
  {
    var s := a.radius + b.radius;
    SquareAtLeast(a.cx - b.cx, s);
    SquareAtLeast(a.cy - b.cy, s);
    SquaredDistance(a, b) < s * s
  }

  lemma SquareAtLeast(d: int, s: int)
    ensures 0 <= s <= Abs(d) ==> s * s <= d * d
  {
    if 0 <= s <= Abs(d) {
      assert s * s <= s * Abs(d);
      assert s * Abs(d) <= Abs(d) * Abs(d);
    }
  }

  lemma CollideSymmetric(a: Circle, b: Circle)
    ensures CirclesCollide(a, b) == CirclesCollide(b, a)
  {
  }

  /** Tangent circles, whose squared centre distance is exactly the squared
      sum of the radii, do not collide. */
  lemma TangentDoesNotCollide(a: Circle, b: Circle)
    ensures SquaredDistance(a, b) == (a.radius + b.radius) * (a.radius + b.radius) ==>
              !CirclesCollide(a, b)
  {
  }

  /** Circles with the same centre and positive radii always collide. */
  lemma SameCentreCollides(a: Circle, b: Circle)
    requires a.cx == b.cx && a.cy == b.cy
    requires a.radius > 0 && b.radius > 0
    ensures CirclesCollide(a, b)
  {
  }

  /** For two centres on one row, the squared test is the plain distance test:
      they collide exactly when the horizontal gap is below the sum of the radii. */
  lemma CollideOnRow(a: Circle, b: Circle)
    requires a.cy == b.cy
    requires a.radius + b.radius >= 0
    ensures CirclesCollide(a, b) <==> Abs(a.cx - b.cx) < a.radius + b.radius
  {
  }
}
