/**
 The real-number stand-ins for the `f64` arithmetic the drawables use.

 Every `f64` is modelled as a `real`. The library calls whose values the
 verifier cannot compute (`sqrt`, `atan`, `atan2`, `sin`, `cos`, the constant
 `PI` and the decimal rendering `to_string`) are fields of a `Lib` record that
 every operation takes as a parameter; `Valid` states the few facts about them
 that the proofs rely on. Everything proved under `Valid(m)` therefore holds for
 every library meeting those facts, and in particular for the real functions.
 */
module RealMath {

  /** `core::f64::EPSILON`, the gap between 1.0 and the next `f64`: exactly 2^-52. */
  const Epsilon: real := 1.0 / 4503599627370496.0

  /** The floating-point library the drawables call into.
      `poleAtan(n)` is the value `(n / 0.0).atan()` takes: IEEE division by zero
      gives an infinity or NaN, which reals do not have, so that value is left open. */
  datatype Lib = Lib(
    sqrt: real -> real,
    atan: real -> real,
    poleAtan: real -> real,
    atan2: (real, real) -> real,
    sin: real -> real,
    cos: real -> real,
    pi: real,
    show: real -> string)

  /** The facts about the library that the proofs use, and no more. */
  ghost predicate Valid(m: Lib) {
    && (forall r :: 0.0 <= r ==> 0.0 <= m.sqrt(r) && m.sqrt(r) * m.sqrt(r) == r)
    && m.atan(0.0) == 0.0
    && m.sin(0.0) == 0.0
    && m.cos(0.0) == 1.0
    && (forall a :: m.sin(a) * m.sin(a) + m.cos(a) * m.cos(a) == 1.0)
    && (forall x, y {:trigger m.atan2(y, x)} :: Norm(m, x, y) * m.cos(m.atan2(y, x)) == x)
    && (forall x, y {:trigger m.atan2(y, x)} :: Norm(m, x, y) * m.sin(m.atan2(y, x)) == y)
    && m.pi > 0.0
  }

  /** A half turn by `PI` negates the sine and the cosine. Kept apart from
      `Valid` so that only the proofs about half turns carry it. */
  ghost predicate HalfTurn(m: Lib) {
    && (forall a, b {:trigger m.cos(a), m.cos(b)} :: b == a + m.pi ==> m.cos(b) == -m.cos(a))
    && (forall a, b {:trigger m.sin(a), m.sin(b)} :: b == a + m.pi ==> m.sin(b) == -m.sin(a))
  }

  /** `(x.powi(2) + y.powi(2)).sqrt()`: the Euclidean norm of `(x, y)`. */
  function Norm(m: Lib, x: real, y: real): real {
    m.sqrt(x * x + y * y)
  }

  /** `(num / den).atan()`: the angle of slope `num / den`, with the division
      by zero handed to `poleAtan`. */
  function AtanOfRatio(m: Lib, num: real, den: real): real {
    if den != 0.0 then m.atan(num / den) else m.poleAtan(num)
  }

  /** The factor a `scale(c)` really applies: a zero factor is replaced by 1. */
  function ScaleFactor(c: real): (k: real)
    ensures k != 0.0
    ensures c != 0.0 ==> k == c
  {
    if c == 0.0 then 1.0 else c
  }

  /** The one-sided tolerance test `a - b <= EPSILON` both `PartialEq` impls use. */
  predicate AtMostEpsilonAbove(a: real, b: real) {
    a - b <= Epsilon
  }

  /** The two-sided tolerance test `|a - b| <= EPSILON`. */
  predicate WithinEpsilon(a: real, b: real) {
    -Epsilon <= a - b <= Epsilon
  }

  lemma NonZeroProduct(a: real, b: real)
    requires a != 0.0 && b != 0.0
    ensures a * b != 0.0
  {
  }

  /** Two non-negative numbers with equal squares are equal. */
  lemma NonNegativeSquareRoot(s: real, t: real)
    requires 0.0 <= s && 0.0 <= t
    requires s * s == t * t
    ensures s == t
  {
    if s + t != 0.0 {
      assert (s - t) * (s + t) == s * s - t * t;
      CancelFactor(s - t, s + t);
    }
  }

  /** Negating both sides of a ratio leaves it unchanged. */
  lemma NegatedRatio(n: real, d: real)
    requires d != 0.0
    ensures (-n) / (-d) == n / d
  {
    assert (n / d) * d == n;
    assert ((-n) / (-d)) * (-d) == -n;
    assert ((-n) / (-d) - n / d) * d == 0.0;
    CancelFactor((-n) / (-d) - n / d, d);
  }

  /** A product with a non-zero factor vanishes only if the other factor does. */
  lemma CancelFactor(a: real, b: real)
    requires b != 0.0 && a * b == 0.0
    ensures a == 0.0
  {
    assert a == (a * b) / b;
  }

  function Abs(a: real): (r: real)
    ensures 0.0 <= r && r * r == a * a
    ensures r == a || r == -a
  {
    if a < 0.0 then -a else a
  }

  /** The norm is the non-negative root of `x² + y²`. */
  lemma NormNonNegative(m: Lib, x: real, y: real)
    requires Valid(m)
    ensures 0.0 <= Norm(m, x, y)
    ensures Norm(m, x, y) * Norm(m, x, y) == x * x + y * y
  {
    assert 0.0 <= x * x + y * y;
  }

  /** The norm vanishes exactly at the origin. */
  lemma NormZeroIff(m: Lib, x: real, y: real)
    requires Valid(m)
    ensures Norm(m, x, y) == 0.0 <==> x == 0.0 && y == 0.0
  {
    NormNonNegative(m, x, y);
    RootZeroIff(Norm(m, x, y), x, y);
  }

  /** The norm of `(a, 0)` and of `(-a, 0)` is `a`, for `a >= 0`. */
  lemma NormOnAxis(m: Lib, a: real)
    requires Valid(m)
    requires 0.0 <= a
    ensures Norm(m, a, 0.0) == a && Norm(m, -a, 0.0) == a
  {
    NormNonNegative(m, a, 0.0);
    NonNegativeSquareRoot(Norm(m, a, 0.0), a);
    NormNonNegative(m, -a, 0.0);
    NonNegativeSquareRoot(Norm(m, -a, 0.0), a);
  }

  lemma RootZeroIff(n: real, x: real, y: real)
    requires 0.0 <= n && n * n == x * x + y * y
    ensures n == 0.0 <==> x == 0.0 && y == 0.0
  {
    if n == 0.0 {
      assert x * x + y * y == 0.0;
      assert 0.0 <= x * x && 0.0 <= y * y;
      assert x * x == 0.0 && y * y == 0.0;
      NonNegativeSquareRoot(Abs(x), 0.0);
      NonNegativeSquareRoot(Abs(y), 0.0);
    } else if x == 0.0 && y == 0.0 {
      assert n * n == 0.0;
      NonNegativeSquareRoot(n, 0.0);
    }
  }

  /** The root of `(cx)² + (cy)²` is `|c|` times the root of `x² + y²`. */
  lemma ScaledRoot(s: real, n: real, c: real, x: real, y: real)
    requires 0.0 <= s && s * s == (c * x) * (c * x) + (c * y) * (c * y)
    requires 0.0 <= n && n * n == x * x + y * y
    ensures s == Abs(c) * n
  {
    var a := Abs(c);
    assert (a * n) * (a * n) == (a * a) * (n * n);
    assert (c * x) * (c * x) + (c * y) * (c * y) == (c * c) * (x * x + y * y);
    NonNegativeSquareRoot(s, a * n);
  }

  /** Scaling both coordinates by `c` scales the norm by `|c|`. */
  lemma NormScaled(m: Lib, x: real, y: real, c: real)
    requires Valid(m)
    ensures Norm(m, c * x, c * y) == Abs(c) * Norm(m, x, y)
  {
    NormNonNegative(m, x, y);
    NormNonNegative(m, c * x, c * y);
    ScaledRoot(Norm(m, c * x, c * y), Norm(m, x, y), c, x, y);
  }

  /** The root of `(len·c)² + (len·s)²` is `len` when `c² + s² = 1`. */
  lemma PolarRoot(n: real, len: real, c: real, s: real)
    requires 0.0 <= len && s * s + c * c == 1.0
    requires 0.0 <= n && n * n == (len * c) * (len * c) + (len * s) * (len * s)
    ensures n == len
  {
    assert (len * c) * (len * c) + (len * s) * (len * s) == (len * len) * (c * c + s * s);
    NonNegativeSquareRoot(n, len);
  }
}
