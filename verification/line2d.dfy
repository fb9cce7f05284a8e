/**
 `Line2D`: two endpoints with the length and the slope angle computed once,
 by the constructor. The `Draw` impl for lines is empty.
 */
module Lines {
  import opened RealMath
  import Points
  import Vectors

  datatype Line2D = Line2D(start: Points.Point2D, end: Points.Point2D, len: real, angle: real)

  /** `Line2D::new`: keeps both endpoints; the accessors `start()`, `end()`,
      `len()` and `angle()` are the datatype's fields. The length and the angle
      are those of the vector from `end` to `start`. */
  function New(m: Lib, start: Points.Point2D, end: Points.Point2D): (l: Line2D)
    ensures l.start == start && l.end == end
    ensures l.len == Vectors.New(m, start.x - end.x, start.y - end.y).len
    ensures l.angle == Vectors.New(m, start.x - end.x, start.y - end.y).arg
  {
    Line2D(start, end,
      Norm(m, start.x - end.x, start.y - end.y),
      AtanOfRatio(m, start.y - end.y, start.x - end.x))
  }

  /** The length is never negative, and is zero exactly when the endpoints coincide. */
  lemma LenNonNegative(m: Lib, start: Points.Point2D, end: Points.Point2D)
    requires Valid(m)
    ensures 0.0 <= New(m, start, end).len
    ensures New(m, start, end).len == 0.0 <==> start == end
  {
    NormNonNegative(m, start.x - end.x, start.y - end.y);
    NormZeroIff(m, start.x - end.x, start.y - end.y);
  }

  /** Swapping the endpoints keeps the length. */
  lemma SwapKeepsLen(m: Lib, start: Points.Point2D, end: Points.Point2D)
    ensures New(m, end, start).len == New(m, start, end).len
  {
    assert (end.x - start.x) * (end.x - start.x) + (end.y - start.y) * (end.y - start.y)
        == (start.x - end.x) * (start.x - end.x) + (start.y - end.y) * (start.y - end.y);
  }

  /** Swapping the endpoints keeps the angle of a non-vertical line. */
  lemma SwapKeepsAngle(m: Lib, start: Points.Point2D, end: Points.Point2D)
    requires start.x != end.x
    ensures New(m, end, start).angle == New(m, start, end).angle
  {
    NegatedRatio(start.y - end.y, start.x - end.x);
    assert end.y - start.y == -(start.y - end.y) && end.x - start.x == -(start.x - end.x);
  }

  /** Moving both endpoints by the same offset keeps the length and the angle. */
  lemma TranslateKeepsLenAndAngle(m: Lib, start: Points.Point2D, end: Points.Point2D, offset: Points.Point2D)
    ensures New(m, Points.Add(start, offset), Points.Add(end, offset)).len == New(m, start, end).len
    ensures New(m, Points.Add(start, offset), Points.Add(end, offset)).angle == New(m, start, end).angle
  {
    var s, e := Points.Add(start, offset), Points.Add(end, offset);
    assert s.x - e.x == start.x - end.x && s.y - e.y == start.y - end.y;
  }

  /** The accessors hand back endpoints that compare equal to the ones given. */
  lemma EndpointsCompareEqual(m: Lib, start: Points.Point2D, end: Points.Point2D)
    ensures Points.Equals(start, New(m, start, end).start)
    ensures Points.Equals(end, New(m, start, end).end)
  {
  }
}
