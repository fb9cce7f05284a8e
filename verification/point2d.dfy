/** A plain point with `+`, `+=` and the one-sided tolerance equality. */
module Points {
  import opened RealMath

  datatype Point2D = Point2D(x: real, y: real)

  /** `Point2D::new`: the point holding exactly the given coordinates;
      the accessors `x()` and `y()` are the datatype's fields. */
  function New(x: real, y: real): (p: Point2D)
    ensures p.x == x && p.y == y
  {
    Point2D(x, y)
  }

  const Origin: Point2D := New(0.0, 0.0)

  /** The `Add` impl. */
  function Add(p: Point2D, q: Point2D): (r: Point2D)
    ensures r.x == p.x + q.x && r.y == p.y + q.y
  {
    Point2D(p.x + q.x, p.y + q.y)
  }

  /** The `AddAssign` impl as written: the new `y` is computed from `self.x`. */
  function AddAssign(p: Point2D, q: Point2D): (r: Point2D)
    ensures r.x == p.x + q.x
    ensures r.y == p.x + q.y
  {
    Point2D(p.x + q.x, p.x + q.y)
  }

  /** `+=` as evidently intended: `p += q` leaves `p` equal to `p + q`. */
  function AddAssignFixed(p: Point2D, q: Point2D): (r: Point2D)
    ensures r == Add(p, q)
  {
    Point2D(p.x + q.x, p.y + q.y)
  }

  /** The `PartialEq` impl as written: only `p - q <= EPSILON` on each axis. */
  function Equals(p: Point2D, q: Point2D): (r: bool)
    ensures r <==> q.x >= p.x - Epsilon && q.y >= p.y - Epsilon
  {
    AtMostEpsilonAbove(p.x, q.x) && AtMostEpsilonAbove(p.y, q.y)
  }

  /** Equality as evidently intended: each coordinate within EPSILON either way. */
  function ApproxEquals(p: Point2D, q: Point2D): (r: bool)
    ensures r <==> Equals(p, q) && Equals(q, p)
  {
    WithinEpsilon(p.x, q.x) && WithinEpsilon(p.y, q.y)
  }

  lemma AddOrigin(p: Point2D)
    ensures Add(p, Origin) == p
  {
  }

  lemma AddCommutative(p: Point2D, q: Point2D)
    ensures Add(p, q) == Add(q, p)
  {
  }

  /** `p += q` gives the same point as `p + q` exactly when `p.x == p.y`. */
  lemma AddAssignAgreesWithAddIff(p: Point2D, q: Point2D)
    ensures AddAssign(p, q) == Add(p, q) <==> p.x == p.y
  {
    if AddAssign(p, q) == Add(p, q) {
      assert p.x + q.y == p.y + q.y;
    }
  }

  /** The point `(1, 0) += (0, 0)` becomes `(1, 1)`. */
  lemma AddAssignMovesByZero()
    ensures AddAssign(New(1.0, 0.0), Origin) == New(1.0, 1.0)
    ensures Add(New(1.0, 0.0), Origin) == New(1.0, 0.0)
  {
  }

  lemma EqualsReflexive(p: Point2D)
    ensures Equals(p, p)
  {
  }

  /** The origin "equals" (5, 5), but not the other way round. */
  lemma EqualsNotSymmetric()
    ensures Equals(Origin, New(5.0, 5.0))
    ensures !Equals(New(5.0, 5.0), Origin)
  {
  }

  lemma ApproxEqualsSymmetric(p: Point2D, q: Point2D)
    ensures ApproxEquals(p, q) <==> ApproxEquals(q, p)
  {
  }

  lemma ApproxEqualsReflexive(p: Point2D)
    ensures ApproxEquals(p, p)
  {
  }

  /** Points the corrected test accepts are at most EPSILON apart on each axis. */
  lemma ApproxEqualsIsClose(p: Point2D, q: Point2D)
    requires ApproxEquals(p, q)
    ensures -Epsilon <= p.x - q.x <= Epsilon && -Epsilon <= p.y - q.y <= Epsilon
  {
  }
}
