/**
 `Vector2`: a 2D vector that stores its coordinates together with a cached
 length `len` and angle `arg`. Every `&mut self` method becomes a function
 returning the updated vector; the methods that also return `*self` return a
 copy of exactly that value, so one result stands for both.
 */
module Vectors {
  import opened RealMath

  datatype Vector2 = Vector2(x: real, y: real, len: real, arg: real)

  /** The cached length is the Euclidean norm of the coordinates. */
  predicate LenConsistent(m: Lib, v: Vector2) {
    v.len == Norm(m, v.x, v.y)
  }

  /** The cached angle is what `new` computes, `(y / x).atan()`. */
  predicate ArgConsistent(m: Lib, v: Vector2) {
    v.arg == AtanOfRatio(m, v.y, v.x)
  }

  predicate Consistent(m: Lib, v: Vector2) {
    LenConsistent(m, v) && ArgConsistent(m, v)
  }

  /** `Vector2::new`: the given coordinates with a cache that agrees with them. */
  function New(m: Lib, x: real, y: real): (v: Vector2)
    ensures v.x == x && v.y == y
    ensures Consistent(m, v)
  {
    Vector2(x, y, Norm(m, x, y), AtanOfRatio(m, y, x))
  }

  /** A vector with a consistent cache is the one `new` builds from its coordinates. */
  lemma ConsistentIsNew(m: Lib, v: Vector2)
    requires Consistent(m, v)
    ensures New(m, v.x, v.y) == v
  {
  }

  /** `dot`: never negative for a vector with itself, and zero against the zero vector. */
  function Dot(v: Vector2, w: Vector2): (r: real)
    ensures v.x == w.x && v.y == w.y ==> 0.0 <= r
    ensures (v.x == 0.0 && v.y == 0.0) || (w.x == 0.0 && w.y == 0.0) ==> r == 0.0
  {
    v.x * w.x + v.y * w.y
  }

  /** `cross`: zero for two vectors with the same coordinates, and against the zero vector. */
  function Cross(v: Vector2, w: Vector2): (r: real)
    ensures v.x == w.x && v.y == w.y ==> r == 0.0
    ensures (v.x == 0.0 && v.y == 0.0) || (w.x == 0.0 && w.y == 0.0) ==> r == 0.0
  {
    v.x * w.y - v.y * w.x
  }

  /** The documented example: `(1, 1)` and `(1, -1)` have the same length, are
      perpendicular, and their cross product has magnitude 2. */
  lemma DocExample(m: Lib)
    ensures New(m, 1.0, 1.0).len == New(m, 1.0, -1.0).len
    ensures Dot(New(m, 1.0, 1.0), New(m, 1.0, -1.0)) == 0.0
    ensures Abs(Cross(New(m, 1.0, 1.0), New(m, 1.0, -1.0))) == 2.0
  {
    assert 1.0 * 1.0 + 1.0 * 1.0 == 1.0 * 1.0 + -1.0 * -1.0;
  }

  lemma DotCommutative(v: Vector2, w: Vector2)
    ensures Dot(v, w) == Dot(w, v)
  {
  }

  /** The dot product of a vector with itself is the square of its cached length. */
  lemma DotSelfIsLenSquared(m: Lib, v: Vector2)
    requires Valid(m)
    requires LenConsistent(m, v)
    ensures Dot(v, v) == v.len * v.len
  {
    NormNonNegative(m, v.x, v.y);
  }

  lemma CrossAntisymmetric(v: Vector2, w: Vector2)
    ensures Cross(v, w) == -Cross(w, v)
  {
  }

  /** A vector is parallel to every multiple of itself, however it is formed. */
  lemma CrossWithMultipleIsZero(m: Lib, v: Vector2, c: real)
    ensures Cross(v, v) == 0.0
    ensures Cross(v, New(m, c * v.x, c * v.y)) == 0.0
    ensures Cross(v, Scale(v, c)) == 0.0
  {
    var k := ScaleFactor(c);
    assert v.x * (k * v.y) - v.y * (k * v.x) == 0.0;
    assert v.x * (c * v.y) - v.y * (c * v.x) == 0.0;
  }

  /** `translate`: shifts the coordinates by the offset and recomputes the cache. */
  function Translate(m: Lib, v: Vector2, offset: Vector2): (r: Vector2)
    ensures r.x == v.x + offset.x && r.y == v.y + offset.y
    ensures Consistent(m, r)
  {
    New(m, v.x + offset.x, v.y + offset.y)
  }

  /** Translating back by the opposite offset restores the coordinates, and the
      whole vector when its cache was consistent. */
  lemma TranslateInverse(m: Lib, v: Vector2, offset: Vector2)
    ensures var back := Translate(m, Translate(m, v, offset), New(m, -offset.x, -offset.y));
      back.x == v.x && back.y == v.y && (Consistent(m, v) ==> back == v)
  {
    var back := Translate(m, Translate(m, v, offset), New(m, -offset.x, -offset.y));
    assert back.x == v.x && back.y == v.y;
    if Consistent(m, v) {
      ConsistentIsNew(m, v);
      ConsistentIsNew(m, back);
    }
  }

  /** `rotate`: turns the cached angle by `angle` and recomputes the coordinates
      from the cached length and the new angle; the length is kept. */
  function Rotate(m: Lib, v: Vector2, angle: real): (r: Vector2)
    ensures r.len == v.len
    ensures r.arg == v.arg + angle
    ensures r.x == v.len * m.cos(v.arg + angle) && r.y == v.len * m.sin(v.arg + angle)
  {
    var arg := v.arg + angle;
    Vector2(v.len * m.cos(arg), v.len * m.sin(arg), v.len, arg)
  }

  /** Two rotations are one rotation by the sum of the angles. */
  lemma RotateCompose(m: Lib, v: Vector2, a: real, b: real)
    ensures Rotate(m, Rotate(m, v, a), b) == Rotate(m, v, a + b)
  {
    assert v.arg + a + b == v.arg + (a + b);
  }

  /** Rotating keeps the cached length equal to the norm of the new coordinates. */
  lemma RotateKeepsLenConsistent(m: Lib, v: Vector2, angle: real)
    requires Valid(m)
    requires LenConsistent(m, v)
    ensures LenConsistent(m, Rotate(m, v, angle))
  {
    var r := Rotate(m, v, angle);
    NormNonNegative(m, v.x, v.y);
    NormNonNegative(m, r.x, r.y);
    assert m.sin(r.arg) * m.sin(r.arg) + m.cos(r.arg) * m.cos(r.arg) == 1.0;
    PolarRoot(Norm(m, r.x, r.y), v.len, m.cos(r.arg), m.sin(r.arg));
  }

  /** `scale`: multiplies `x`, `y` and `len` by the factor (a zero factor is
      replaced by 1); the angle is never touched. */
  function Scale(v: Vector2, c: real): (r: Vector2)
    ensures c == 0.0 ==> r == v
    ensures r.arg == v.arg
    ensures c != 0.0 ==> r.x == c * v.x && r.y == c * v.y && r.len == c * v.len
  {
    var k := ScaleFactor(c);
    Vector2(k * v.x, k * v.y, k * v.len, v.arg)
  }

  /** Scaling by `a` and then by `b` is scaling by `a * b`, for non-zero factors. */
  lemma ScaleCompose(v: Vector2, a: real, b: real)
    requires a != 0.0 && b != 0.0
    ensures Scale(Scale(v, a), b) == Scale(v, a * b)
  {
    assert a * b != 0.0;
    assert v.x * a * b == v.x * (a * b);
    assert v.y * a * b == v.y * (a * b);
    assert v.len * a * b == v.len * (a * b);
  }

  /** A positive factor keeps the cached length consistent. */
  lemma ScalePositiveKeepsLenConsistent(m: Lib, v: Vector2, c: real)
    requires Valid(m)
    requires LenConsistent(m, v)
    requires c > 0.0
    ensures LenConsistent(m, Scale(v, c))
  {
    var r := Scale(v, c);
    NormNonNegative(m, v.x, v.y);
    NormNonNegative(m, r.x, r.y);
    ScaledRoot(Norm(m, r.x, r.y), Norm(m, v.x, v.y), c, v.x, v.y);
  }

  /** A negative factor makes the cached length of a non-zero vector negative,
      so it no longer equals the norm of the coordinates. */
  lemma ScaleNegativeBreaksLenConsistent(m: Lib, v: Vector2, c: real)
    requires Valid(m)
    requires LenConsistent(m, v)
    requires v.x != 0.0 || v.y != 0.0
    requires c < 0.0
    ensures Scale(v, c).len < 0.0
    ensures !LenConsistent(m, Scale(v, c))
  {
    NormZeroIff(m, v.x, v.y);
    NormNonNegative(m, v.x, v.y);
    var r := Scale(v, c);
    NormNonNegative(m, r.x, r.y);
  }

  /** `Vector2::new(1, 0).scale(-1)` has length -1. */
  lemma ScaleNegativeExample(m: Lib)
    requires Valid(m)
    ensures New(m, 1.0, 0.0).len == 1.0
    ensures Scale(New(m, 1.0, 0.0), -1.0).len == -1.0
  {
    NormOnAxis(m, 1.0);
  }

  /** `scale` as evidently intended: the length stays the norm, multiplied by
      `|c|`, and a negative factor turns the angle by `PI` instead, so that the
      coordinates `rotate` rebuilds from `len` and `arg` are the scaled ones. */
  function ScaleFixed(m: Lib, v: Vector2, c: real): (r: Vector2)
    ensures c == 0.0 ==> r == v
    ensures r.x == ScaleFactor(c) * v.x && r.y == ScaleFactor(c) * v.y
    ensures r.len == Abs(ScaleFactor(c)) * v.len
    ensures c >= 0.0 ==> r.arg == v.arg
    ensures c < 0.0 ==> r.arg == v.arg + m.pi
  {
    var k := ScaleFactor(c);
    if k < 0.0 then Vector2(k * v.x, k * v.y, -k * v.len, v.arg + m.pi)
    else Vector2(k * v.x, k * v.y, k * v.len, v.arg)
  }

  lemma ScaleFixedKeepsLenConsistent(m: Lib, v: Vector2, c: real)
    requires Valid(m)
    requires LenConsistent(m, v)
    ensures LenConsistent(m, ScaleFixed(m, v, c))
  {
    var r, k := ScaleFixed(m, v, c), ScaleFactor(c);
    NormScaled(m, v.x, v.y, k);
    assert r.x == k * v.x && r.y == k * v.y;
  }

  /** The coordinates sit where `rotate` puts them: at `len·cos(arg)`, `len·sin(arg)`. */
  predicate PolarConsistent(m: Lib, v: Vector2) {
    v.x == v.len * m.cos(v.arg) && v.y == v.len * m.sin(v.arg)
  }

  /** `rotate(0)` leaves a vector unchanged exactly when its coordinates are
      the ones its length and angle describe. */
  lemma RotateZeroIsIdentityIff(m: Lib, v: Vector2)
    ensures Rotate(m, v, 0.0) == v <==> PolarConsistent(m, v)
  {
    assert v.arg + 0.0 == v.arg;
  }

  /** Whatever it starts from, `rotate` leaves a vector whose coordinates match
      its length and angle. */
  lemma RotateMakesPolarConsistent(m: Lib, v: Vector2, angle: real)
    ensures PolarConsistent(m, Rotate(m, v, angle))
  {
  }

  /** The `atan2` constructor places the coordinates at `len·cos(arg)`, `len·sin(arg)`. */
  lemma NewAtan2IsPolarConsistent(m: Lib, x: real, y: real)
    requires Valid(m)
    ensures PolarConsistent(m, NewAtan2(m, x, y))
  {
    assert Norm(m, x, y) * m.cos(m.atan2(y, x)) == x;
    assert Norm(m, x, y) * m.sin(m.atan2(y, x)) == y;
  }

  /** `scale` as written keeps the coordinates where `rotate` puts them, for
      every factor: a negative `len` with the old angle points the same way as
      the negated coordinates. */
  lemma ScaleKeepsPolarConsistent(m: Lib, v: Vector2, c: real)
    requires PolarConsistent(m, v)
    ensures PolarConsistent(m, Scale(v, c))
  {
    var k := ScaleFactor(c);
    assert k * v.x == (k * v.len) * m.cos(v.arg);
    assert k * v.y == (k * v.len) * m.sin(v.arg);
  }

  /** The corrected scale keeps that agreement too, for every factor. */
  lemma ScaleFixedKeepsPolarConsistent(m: Lib, v: Vector2, c: real)
    requires HalfTurn(m)
    requires PolarConsistent(m, v)
    ensures PolarConsistent(m, ScaleFixed(m, v, c))
  {
    var k := ScaleFactor(c);
    if k < 0.0 {
      assert m.cos(v.arg + m.pi) == -m.cos(v.arg);
      assert m.sin(v.arg + m.pi) == -m.sin(v.arg);
      assert k * v.x == (-k * v.len) * m.cos(v.arg + m.pi);
      assert k * v.y == (-k * v.len) * m.sin(v.arg + m.pi);
    } else {
      assert k * v.x == (k * v.len) * m.cos(v.arg);
      assert k * v.y == (k * v.len) * m.sin(v.arg);
    }
  }

  /** `(1, 0)` with the `atan2` angle, scaled by -1 the corrected way: its
      length stays 1 and `rotate(0)` leaves it at `(-1, 0)`. */
  lemma ScaleFixedNegativeExample(m: Lib)
    requires Valid(m) && HalfTurn(m)
    ensures ScaleFixed(m, NewAtan2(m, 1.0, 0.0), -1.0).len == 1.0
    ensures Rotate(m, ScaleFixed(m, NewAtan2(m, 1.0, 0.0), -1.0), 0.0).x == -1.0
    ensures Rotate(m, ScaleFixed(m, NewAtan2(m, 1.0, 0.0), -1.0), 0.0).y == 0.0
  {
    NormOnAxis(m, 1.0);
    NewAtan2IsPolarConsistent(m, 1.0, 0.0);
    ScaleFixedKeepsPolarConsistent(m, NewAtan2(m, 1.0, 0.0), -1.0);
    RotateZeroIsIdentityIff(m, ScaleFixed(m, NewAtan2(m, 1.0, 0.0), -1.0));
  }

  /** `Add`: a fresh vector built from the coordinate sums. */
  function Add(m: Lib, v: Vector2, w: Vector2): (r: Vector2)
    ensures r.x == v.x + w.x && r.y == v.y + w.y
    ensures Consistent(m, r)
  {
    New(m, v.x + w.x, v.y + w.y)
  }

  /** `AddAssign`: replaces `self` by the vector built from the coordinate sums. */
  function AddAssign(m: Lib, v: Vector2, w: Vector2): (r: Vector2)
    ensures r == Add(m, v, w)
  {
    New(m, v.x + w.x, v.y + w.y)
  }

  /** `Sub`: a fresh vector built from the coordinate differences. */
  function Sub(m: Lib, v: Vector2, w: Vector2): (r: Vector2)
    ensures r.x == v.x - w.x && r.y == v.y - w.y
    ensures Consistent(m, r)
  {
    New(m, v.x - w.x, v.y - w.y)
  }

  /** `SubAssign`: replaces `self` by the vector built from the coordinate differences. */
  function SubAssign(m: Lib, v: Vector2, w: Vector2): (r: Vector2)
    ensures r == Sub(m, v, w)
  {
    New(m, v.x - w.x, v.y - w.y)
  }

  lemma AddCommutative(m: Lib, v: Vector2, w: Vector2)
    ensures Add(m, v, w) == Add(m, w, v)
  {
  }

  /** `(a + b) - b` has `a`'s coordinates, and is `a` itself when `a`'s cache is consistent. */
  lemma AddThenSub(m: Lib, a: Vector2, b: Vector2)
    ensures Sub(m, Add(m, a, b), b).x == a.x && Sub(m, Add(m, a, b), b).y == a.y
    ensures Consistent(m, a) ==> Sub(m, Add(m, a, b), b) == a
  {
    var back := Sub(m, Add(m, a, b), b);
    assert back.x == a.x && back.y == a.y;
    if Consistent(m, a) {
      ConsistentIsNew(m, a);
      ConsistentIsNew(m, back);
    }
  }

  /** `equals_vector`, behind `==`: only `self - rhs <= EPSILON` on each axis. */
  function EqualsVector(v: Vector2, w: Vector2): (r: bool)
    ensures r <==> w.x >= v.x - Epsilon && w.y >= v.y - Epsilon
  {
    AtMostEpsilonAbove(v.x, w.x) && AtMostEpsilonAbove(v.y, w.y)
  }

  /** `equals_tuple`, behind `== (a, b)`: compares with `Vector2::new(a, b)`. */
  function EqualsTuple(m: Lib, v: Vector2, a: real, b: real): (r: bool)
    ensures r <==> a >= v.x - Epsilon && b >= v.y - Epsilon
  {
    EqualsVector(v, New(m, a, b))
  }

  /** Equality as evidently intended: each coordinate within EPSILON either way. */
  function ApproxEquals(v: Vector2, w: Vector2): (r: bool)
    ensures r <==> EqualsVector(v, w) && EqualsVector(w, v)
  {
    WithinEpsilon(v.x, w.x) && WithinEpsilon(v.y, w.y)
  }

  lemma EqualsReflexive(v: Vector2)
    ensures EqualsVector(v, v)
  {
  }

  /** The comparison looks only at the coordinates, never at the cache. */
  lemma EqualsIgnoresCache(v: Vector2, w: Vector2, len: real, arg: real)
    ensures EqualsVector(v, w) == EqualsVector(v, w.(len := len, arg := arg))
    ensures EqualsVector(v, w) == EqualsVector(v.(len := len, arg := arg), w)
  {
  }

  /** `v == (a, b)` holds exactly when `v == Vector2::new(a, b)` does. */
  lemma EqualsTupleIsEqualsNew(m: Lib, v: Vector2, a: real, b: real)
    ensures EqualsTuple(m, v, a, b) <==> EqualsVector(v, New(m, a, b))
  {
  }

  /** (0, 0) "equals" (1, 1), but not the other way round. */
  lemma EqualsNotSymmetric(m: Lib)
    ensures EqualsVector(New(m, 0.0, 0.0), New(m, 1.0, 1.0))
    ensures !EqualsVector(New(m, 1.0, 1.0), New(m, 0.0, 0.0))
  {
  }

  lemma ApproxEqualsSymmetric(v: Vector2, w: Vector2)
    ensures ApproxEquals(v, w) <==> ApproxEquals(w, v)
  {
  }

  lemma ApproxEqualsReflexive(v: Vector2)
    ensures ApproxEquals(v, v)
  {
  }

  /** `Vector2::new` with the angle taken by the two-argument arctangent, which
      places it in the right quadrant. */
  function NewAtan2(m: Lib, x: real, y: real): (v: Vector2)
    ensures v.x == x && v.y == y
    ensures LenConsistent(m, v)
    ensures v.arg == m.atan2(y, x)
  {
    Vector2(x, y, Norm(m, x, y), m.atan2(y, x))
  }

  /** `Vector2::new(-1, 0).rotate(0)` comes out as (1, 0): `atan(0 / -1)` is 0,
      the angle of the opposite direction. */
  lemma RotateZeroFlips(m: Lib)
    requires Valid(m)
    ensures New(m, -1.0, 0.0).arg == 0.0
    ensures Rotate(m, New(m, -1.0, 0.0), 0.0).x == 1.0
  {
    NormOnAxis(m, 1.0);
  }

  /** With the angle from `atan2`, rotating by `a` and back by `-a` returns the
      original coordinates, for every vector. */
  lemma RotateRoundTrip(m: Lib, x: real, y: real, a: real)
    requires Valid(m)
    ensures var v := Rotate(m, Rotate(m, NewAtan2(m, x, y), a), -a);
      v.x == x && v.y == y
  {
    var v := NewAtan2(m, x, y);
    RotateCompose(m, v, a, -a);
    assert v.arg + (a + -a) == v.arg;
    assert Norm(m, x, y) * m.cos(m.atan2(y, x)) == x;
    assert Norm(m, x, y) * m.sin(m.atan2(y, x)) == y;
  }
}
