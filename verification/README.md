# Alrassam 2D geometry core in Dafny

This project models the geometry kernel of Alrassam, a small vector-graphics editor, together with the click-collecting state machine of its web canvas component:

- `Vector2` (`vector.dfy`, module `Vectors`): coordinates plus a cached length `len` and angle `arg`. It offers dot and cross products, `translate`, `rotate`, `scale` (a zero factor is replaced by 1), `+`, `+=`, `-`, `-=`, and the epsilon comparison behind `==`.
- `Point2D` (`point2d.dfy`, module `Points`): a plain point with `+`, `+=` and the same kind of epsilon comparison.
- `Circle` (`circle.dfy`, module `Circles`): center, radius and the stored circumference and area. Its `Draw` operations are translate, rotate, scale, SVG tag name, tag properties and inner content.
- `Line2D` (`line2d.dfy`, module `Lines`): two endpoints. The constructor computes the length and the slope angle.
- `CanvasComponent::update` (`canvas_component.dfy`): a pure transition over the selected tool, the point buffer and the lines added to the canvas.

`f64` values are modelled as `real`. The library calls whose values cannot be computed exactly are fields of the record `RealMath.Lib`, and every operation takes that record as a parameter. These are `sqrt`, `atan`, `atan2`, `sin`, `cos`, the constant `PI` and number-to-string. `RealMath.Valid` lists the only facts the proofs use:

- `sqrt` gives the non-negative root;
- `atan(0) = 0`, `sin(0) = 0`, `cos(0) = 1`;
- `sin² + cos² = 1`;
- `atan2` recovers `x` and `y` from the norm;
- `PI > 0`.

The separate predicate `RealMath.HalfTurn` adds one more fact, that a half turn by `PI` negates `sin` and `cos`. Only the proofs about the corrected `scale` use it.

`EPSILON` is the exact value of `f64::EPSILON`, 2^-52. Every Rust method that takes `&mut self` becomes a function that returns the updated value. The Rust methods that also return `*self` or `&mut Self` return that same value, so one result stands for both.

The model follows the code as written. Where the code clearly misses its evident intent, the model keeps the as-written behaviour and adds a corrected definition beside it. Both halves are proved, as listed under Findings.

## Model

| member | source | states |
|---|---|---|
| `Vectors.New` | program_core/src/drawable/vector.rs:31-38 | keeps the given coordinates, and its cached `len`/`arg` agree with them (`len` is the norm, `arg` is `atan(y/x)`) |
| `Vectors.ConsistentIsNew` | program_core/src/drawable/vector.rs:31-38 | every vector whose cache agrees with its coordinates is exactly the one `new` builds from them |
| `Vectors.Dot` | program_core/src/drawable/vector.rs:57-59 | the dot product of a vector with itself is never negative, and the dot product with a zero vector is 0 |
| `Vectors.Cross` | program_core/src/drawable/vector.rs:63-65 | the cross product of two vectors with the same coordinates is 0, and so is the cross product with a zero vector |
| `Vectors.DocExample` | program_core/src/drawable/vector.rs:14-19 | `(1, 1)` and `(1, -1)` have equal lengths, dot product 0 and a cross product of magnitude 2 |
| `Vectors.DotCommutative` | program_core/src/drawable/vector.rs:57-59 | `v.dot(w) == w.dot(v)` |
| `Vectors.DotSelfIsLenSquared` | program_core/src/drawable/vector.rs:57-59 | a vector dotted with itself gives the square of its cached length |
| `Vectors.CrossAntisymmetric` | program_core/src/drawable/vector.rs:63-65 | `v.cross(w) == -w.cross(v)` |
| `Vectors.CrossWithMultipleIsZero` | program_core/src/drawable/vector.rs:63-65 | the cross product of a vector with itself, with `new(c·x, c·y)` and with `scale(c)` of itself is 0 |
| `Vectors.Translate` | program_core/src/drawable/vector.rs:69-77 | adds the offset to `x` and `y`; the cache is recomputed so that it agrees with the new coordinates |
| `Vectors.TranslateInverse` | program_core/src/drawable/vector.rs:69-77 | translating back by the opposite offset restores the coordinates, and restores the whole vector when its cache agreed |
| `Vectors.Rotate` | program_core/src/drawable/vector.rs:81-87 | keeps `len`, sets `arg' = arg + a`, `x' = len·cos(arg')`, `y' = len·sin(arg')` |
| `Vectors.RotateCompose` | program_core/src/drawable/vector.rs:81-87 | rotating by `a` and then by `b` equals rotating by `a + b` |
| `Vectors.RotateKeepsLenConsistent` | program_core/src/drawable/vector.rs:81-87 | after a rotation the cached length is still the norm of the new coordinates |
| `Vectors.RotateZeroFlips` | program_core/src/drawable/vector.rs:36 | `Vector2::new(-1, 0)` gets angle 0, so `rotate(0)` moves it to `x = 1` |
| `Vectors.NewAtan2` | program_core/src/drawable/vector.rs:31-38 | corrected constructor: same coordinates and length, with the angle `atan2(y, x)` |
| `Vectors.RotateRoundTrip` | program_core/src/drawable/vector.rs:81-87 | with the `atan2` angle, rotating by `a` and then by `-a` gives back the original coordinates |
| `Vectors.Scale` | program_core/src/drawable/vector.rs:91-100 | `scale(0)` is the identity on all four fields; otherwise `x`, `y`, `len` are multiplied by `c`; `arg` never changes |
| `Vectors.ScaleCompose` | program_core/src/drawable/vector.rs:91-100 | for non-zero factors, scaling by `a` and then `b` equals scaling by `a·b` |
| `Vectors.ScalePositiveKeepsLenConsistent` | program_core/src/drawable/vector.rs:93-97 | a positive factor keeps `len` equal to the norm of the coordinates |
| `Vectors.ScaleNegativeBreaksLenConsistent` | program_core/src/drawable/vector.rs:93-97 | a negative factor makes `len` of a non-zero vector negative, so it is no longer the norm |
| `Vectors.ScaleNegativeExample` | program_core/src/drawable/vector.rs:97 | `Vector2::new(1, 0)` has `len` 1, and after `scale(-1)` it has `len` -1 |
| `Vectors.ScaleFixed` | program_core/src/drawable/vector.rs:91-100 | corrected scale: the same coordinates as `scale`, `len` multiplied by `|c|`; the angle is kept for a positive factor and turned by `PI` for a negative one; a zero factor changes nothing |
| `Vectors.ScaleFixedKeepsLenConsistent` | program_core/src/drawable/vector.rs:91-100 | the corrected scale keeps `len` equal to the norm for every factor |
| `Vectors.RotateZeroIsIdentityIff` | program_core/src/drawable/vector.rs:81-87 | `rotate(0)` leaves a vector unchanged exactly when `x = len·cos(arg)` and `y = len·sin(arg)` |
| `Vectors.RotateMakesPolarConsistent` | program_core/src/drawable/vector.rs:81-87 | after any `rotate`, `x = len·cos(arg)` and `y = len·sin(arg)` |
| `Vectors.NewAtan2IsPolarConsistent` | program_core/src/drawable/vector.rs:31-38 | with the `atan2` angle, `x = len·cos(arg)` and `y = len·sin(arg)` hold from construction on |
| `Vectors.ScaleKeepsPolarConsistent` | program_core/src/drawable/vector.rs:91-100 | `scale` as written keeps `x = len·cos(arg)`, `y = len·sin(arg)` for every factor, negative ones included, so `rotate` afterwards starts from the scaled coordinates |
| `Vectors.ScaleFixedKeepsPolarConsistent` | program_core/src/drawable/vector.rs:91-100 | the corrected scale keeps that agreement for every factor as well |
| `Vectors.ScaleFixedNegativeExample` | program_core/src/drawable/vector.rs:97 | `(1, 0)` with the `atan2` angle, scaled by -1 the corrected way, has `len` 1, and `rotate(0)` leaves it at `(-1, 0)` |
| `Vectors.Add` | program_core/src/drawable/vector.rs:123-129 | componentwise sum with a cache that agrees with it |
| `Vectors.AddAssign` | program_core/src/drawable/vector.rs:131-135 | `+=` leaves exactly the vector `+` returns |
| `Vectors.Sub` | program_core/src/drawable/vector.rs:137-143 | componentwise difference with a cache that agrees with it |
| `Vectors.SubAssign` | program_core/src/drawable/vector.rs:145-149 | `-=` leaves exactly the vector `-` returns |
| `Vectors.AddCommutative` | program_core/src/drawable/vector.rs:123-129 | `a + b == b + a` on all four fields |
| `Vectors.AddThenSub` | program_core/src/drawable/vector.rs:123-143 | `(a + b) - b` has `a`'s coordinates, and is `a` itself when `a`'s cache agrees |
| `Vectors.EqualsVector` | program_core/src/drawable/vector.rs:105-107 | `v == w` holds exactly when `w.x >= v.x - ε` and `w.y >= v.y - ε` |
| `Vectors.EqualsTuple` | program_core/src/drawable/vector.rs:112-114 | `v == (a, b)` holds exactly when `a >= v.x - ε` and `b >= v.y - ε` |
| `Vectors.EqualsReflexive` | program_core/src/drawable/vector.rs:151-155 | `v == v` |
| `Vectors.EqualsIgnoresCache` | program_core/src/drawable/vector.rs:105-107 | the comparison does not depend on either side's `len` or `arg` |
| `Vectors.EqualsTupleIsEqualsNew` | program_core/src/drawable/vector.rs:157-161 | `v == (a, b)` exactly when `v == Vector2::new(a, b)` |
| `Vectors.EqualsNotSymmetric` | program_core/src/drawable/vector.rs:105-107 | `(0, 0) == (1, 1)` holds but `(1, 1) == (0, 0)` does not |
| `Vectors.ApproxEquals` | program_core/src/drawable/vector.rs:105-107 | corrected comparison: holds exactly when the as-written one holds in both directions |
| `Vectors.ApproxEqualsSymmetric` | program_core/src/drawable/vector.rs:151-155 | the corrected comparison is symmetric |
| `Vectors.ApproxEqualsReflexive` | program_core/src/drawable/vector.rs:151-155 | the corrected comparison is reflexive |
| `Points.New` | program_core/src/drawable/point2d.rs:14-23 | `Point2D::new(x, y)` holds exactly `x` and `y`, which the accessors return |
| `Points.Add` | program_core/src/drawable/point2d.rs:29-34 | `p + q` is the componentwise sum |
| `Points.AddOrigin` | program_core/src/drawable/point2d.rs:29-34 | adding the origin returns `p` |
| `Points.AddCommutative` | program_core/src/drawable/point2d.rs:29-34 | `p + q == q + p` |
| `Points.AddAssign` | program_core/src/drawable/point2d.rs:38-43 | `p += q` sets `x = p.x + q.x` but `y = p.x + q.y` |
| `Points.AddAssignAgreesWithAddIff` | program_core/src/drawable/point2d.rs:29-43 | `p += q` and `p + q` give the same point exactly when `p.x == p.y` |
| `Points.AddAssignMovesByZero` | program_core/src/drawable/point2d.rs:41 | `(1, 0) += (0, 0)` gives `(1, 1)`, while `(1, 0) + (0, 0)` gives `(1, 0)` |
| `Points.AddAssignFixed` | program_core/src/drawable/point2d.rs:38-43 | corrected `+=`: leaves exactly `p + q` |
| `Points.Equals` | program_core/src/drawable/point2d.rs:48-51 | `p == q` holds exactly when `q.x >= p.x - ε` and `q.y >= p.y - ε` |
| `Points.EqualsReflexive` | program_core/src/drawable/point2d.rs:48-51 | `p == p` |
| `Points.EqualsNotSymmetric` | program_core/src/drawable/point2d.rs:48-51 | the origin equals `(5, 5)`, but `(5, 5)` does not equal the origin |
| `Points.ApproxEquals` | program_core/src/drawable/point2d.rs:48-51 | corrected comparison: holds exactly when the as-written one holds in both directions |
| `Points.ApproxEqualsSymmetric` | program_core/src/drawable/point2d.rs:48-51 | the corrected comparison is symmetric |
| `Points.ApproxEqualsReflexive` | program_core/src/drawable/point2d.rs:48-51 | the corrected comparison is reflexive |
| `Points.ApproxEqualsIsClose` | program_core/src/drawable/point2d.rs:48-51 | points the corrected comparison accepts are at most ε apart on each axis |
| `Circles.New` | program_core/src/drawable/circle.rs:34-41 | keeps center and radius; circumference is `2·PI·r` and area is `PI·r²` |
| `Circles.NewRadiusFive` | program_core/src/drawable/circle.rs:20-23 | radius 5 gives circumference `10·PI` and area `25·PI` |
| `Circles.Translate` | program_core/src/drawable/circle.rs:63-66 | only the center changes, through `Point2D`'s `+=`, to `(cx + ox, cx + oy)`; radius, circumference and area are kept |
| `Circles.TranslateFromOrigin` | program_core/src/drawable/circle.rs:118-121 | a radius-5 circle at the origin moved by `(1, 1)` is at `(1, 1)` with radius 5 |
| `Circles.TranslateMisplaces` | program_core/src/drawable/circle.rs:64 | a circle at `(1, 0)` moved by `(0, 0)` ends up at `(1, 1)` |
| `Circles.TranslateKeepsConsistent` | program_core/src/drawable/circle.rs:63-66 | translating keeps circumference and area in agreement with the radius |
| `Circles.TranslateFixed` | program_core/src/drawable/circle.rs:63-66 | corrected translate: the center becomes `center + offset` and nothing else changes |
| `Circles.TranslateFixedRoundTrip` | program_core/src/drawable/circle.rs:63-66 | with the corrected translate, moving by an offset and back restores the circle |
| `Circles.Rotate` | program_core/src/drawable/circle.rs:71-73 | rotating changes no field |
| `Circles.Scale` | program_core/src/drawable/circle.rs:77-81 | `scale(0)` changes nothing; otherwise the radius is multiplied by the factor; the center, circumference and area are kept |
| `Circles.ScaleByTwo` | program_core/src/drawable/circle.rs:125-132 | a radius-5 circle at the origin scaled by 2 keeps its center, has radius 10, and still reports circumference `10·PI` |
| `Circles.ScaleLeavesStale` | program_core/src/drawable/circle.rs:77-81 | for a non-zero radius and any factor other than 0 and 1, the circumference no longer matches the radius; the area still matches exactly when the factor is -1 |
| `Circles.ScaleFixed` | program_core/src/drawable/circle.rs:77-81 | corrected scale: same radius rule and center, with circumference and area recomputed from the new radius |
| `Circles.ScaleFixedZero` | program_core/src/drawable/circle.rs:77-81 | the corrected scale by 0 leaves a consistent circle unchanged |
| `Circles.TagName` | program_core/src/drawable/circle.rs:85-87 | the tag name is always `circle` |
| `Circles.TagProperties` | program_core/src/drawable/circle.rs:92-100 | the map has exactly the keys `cx`, `cy`, `r`, holding the renderings of `center.x`, `center.y` and `radius` |
| `Circles.InnerContent` | program_core/src/drawable/circle.rs:104-106 | there is never inner content |
| `Circles.TranslateShowsInProperties` | program_core/src/drawable/circle.rs:63-100 | after translate, `cx` renders `cx + ox`, `cy` renders `cx + oy`, and `r` is unchanged |
| `Circles.ScaleShowsInProperties` | program_core/src/drawable/circle.rs:77-100 | after scale only `r` changes, to the rendering of the scaled radius |
| `Lines.New` | program_core/src/drawable/line2d.rs:32-39 | keeps both endpoints; `len` and `angle` are the length and angle of the vector from `end` to `start` |
| `Lines.LenNonNegative` | program_core/src/drawable/line2d.rs:36 | `len >= 0`, and `len == 0` exactly when start and end coincide |
| `Lines.SwapKeepsLen` | program_core/src/drawable/line2d.rs:36 | swapping start and end leaves `len` unchanged |
| `Lines.SwapKeepsAngle` | program_core/src/drawable/line2d.rs:37 | for `sx != ex`, swapping start and end leaves `angle` unchanged |
| `Lines.TranslateKeepsLenAndAngle` | program_core/src/drawable/line2d.rs:36-37 | moving both endpoints by the same offset leaves `len` and `angle` unchanged |
| `Lines.EndpointsCompareEqual` | program_core/src/drawable/line2d.rs:41-46 | `start()` and `end()` compare equal to the points given to `new` |
| `CanvasComponent.AddLine` | web/src/canvas.rs:78 | `add_line` appends exactly one `(start, end)` pair and keeps the canvas size |
| `CanvasComponent.Create` | web/src/canvas.rs:22-28 | a 1200×800 canvas with no lines, no tool selected and an empty point buffer |
| `CanvasComponent.Receive` | web/src/canvas.rs:59-69 | a tool message becomes the current tool and keeps the buffer; a click is appended to the buffer and keeps the tool |
| `CanvasComponent.Update` | web/src/canvas.rs:58-85 | the result is true exactly when the line tool is active with two buffered points; then one line `points[0]`→`points[1]` is appended and the buffer is emptied; otherwise the state is just the received one; the canvas size never changes |
| `CanvasComponent.ToolMessageSelects` | web/src/canvas.rs:60-65 | a tool message sets the tool and changes nothing else, except for the line tool with two points buffered |
| `CanvasComponent.SelectLineWithBufferedPoints` | web/src/canvas.rs:60-80 | selecting the line tool with two or more points already buffered draws `points[0]`→`points[1]` at once and clears the buffer |
| `CanvasComponent.ClickWithoutLineTool` | web/src/canvas.rs:66-68 | without the line tool, a click only appends the point and the result is false |
| `CanvasComponent.ClickBuffersFirstPoint` | web/src/canvas.rs:73-75 | with the line tool and an empty buffer, a click is only buffered and the result is false |
| `CanvasComponent.ClickCompletesLine` | web/src/canvas.rs:72-80 | with the line tool and a buffered point, a click adds one line from the first buffered point and clears the buffer |
| `CanvasComponent.OtherToolsNeverDraw` | web/src/canvas.rs:82 | with the circle tool, the rectangle tool or no tool, nothing is added, the result is false and the buffer only grows |
| `CanvasComponent.Run` | web/src/canvas.rs:58-85 | over any sequence of messages, the canvas size stays and the earlier lines stay as a prefix |
| `CanvasComponent.UpdateKeepsReachable` | web/src/canvas.rs:58-85 | one update keeps the invariant: the current tool is never a click, and the line tool never has two points waiting |
| `CanvasComponent.RunKeepsReachable` | web/src/canvas.rs:58-85 | any sequence of updates keeps that invariant |
| `CanvasComponent.CreateReachesOnlyReachable` | web/src/canvas.rs:22-85 | every state reached from `create` satisfies the invariant |
| `CanvasComponent.LineToolTwoClicks` | web/src/canvas.rs:58-85 | from a fresh component, the line tool followed by clicks at `a` and `b` gives exactly the one line `(a, b)` and an empty buffer |

## Left out

- Floating point: all values are reals. Rounding, NaN, infinities and signed zero are not modelled.
- Division by zero in `(y / x).atan()` (vector.rs:36, :74; line2d.rs:37): the value is left open as `poleAtan(y)`, where IEEE would give ±π/2 or NaN.
- Lines.SwapKeepsAngle: proved only for non-vertical lines (`sx != ex`), because the vertical case goes through the open `poleAtan` value.
- Vectors.RotateKeepsLenConsistent: covers only the cached length. Whether `arg` still equals `atan(y/x)` after a rotation depends on which branch `atan` returns, and the minimal facts about `atan` do not decide it.
- Number rendering: `to_string` is the open function `show`. `Vector2`'s `ToString` (vector.rs:117-121) only wraps two such renderings in `(…, …)`, so it is not modelled.
- Accessors (`x()`, `y()`, `len()`, `arg()`, `center()`, `radius()`, `circumference()`, `area()`, `start()`, `end()`, `angle()`) are the datatypes' fields. Clones are plain value copies.
- `Line2D`'s derived `PartialEq` and its empty `Draw` impl (line2d.rs:55) are not modelled. The first only combines `Point2D`'s comparison with exact `f64` equality, and the second has no body.
- The `Draw` trait declaration in `drawable/mod.rs` does not match the methods `Circle` implements. The model follows `circle.rs`. Shared SVG composition, `Text`, `Rect2`, `program_core`'s `Canvas` (only its constructor exists) and the older `drawable.rs` are not part of this model.
- In the web component, `Canvas::add_line` is called but `program_core`'s `Canvas` defines only `new`. It is abstracted as appending the `(start, end)` pair; the style arguments it gets are always `None` and are dropped. The `println!`, the `NodeRef`, `view` and `rendered` (DOM and SVG output) are not modelled.

## Findings

| source | as written | input that shows it | evidently intended | confidence | as-written member | corrected member |
|---|---|---|---|---|---|---|
| program_core/src/drawable/point2d.rs:41 | `+=` computes the new `y` as `self.x + rhs.y` | `Point2D::new(1, 0) += Point2D::new(0, 0)` gives `(1, 1)` | `y = self.y + rhs.y`, so `p += q` equals `p + q` | high, not executed | `Points.AddAssignMovesByZero` | `Points.AddAssignFixed` |
| program_core/src/drawable/circle.rs:64 | `translate` moves the center through the faulty `+=` | a circle at `(1, 0)` translated by `(0, 0)` ends up at `(1, 1)` | the center moves by the offset | high, not executed | `Circles.TranslateMisplaces` | `Circles.TranslateFixed` |
| program_core/src/drawable/point2d.rs:50 | equality tests only `self - other <= EPSILON` on each axis | `Point2D::new(0, 0) == Point2D::new(5, 5)` is true | `abs(self - other) <= EPSILON` on each axis, which is symmetric | high, not executed | `Points.EqualsNotSymmetric` | `Points.ApproxEquals` |
| program_core/src/drawable/vector.rs:106 | same one-sided test in `equals_vector` | `Vector2::new(0, 0) == Vector2::new(1, 1)` is true | `abs` on each difference, which is symmetric | high, not executed | `Vectors.EqualsNotSymmetric` | `Vectors.ApproxEquals` |
| program_core/src/drawable/vector.rs:36 | `arg = (y / x).atan()` loses the quadrant, and `rotate` rebuilds `x`, `y` from it | `Vector2::new(-1, 0).rotate(0)` has `x = 1` | `arg = y.atan2(x)`, so rotating by `a` and back restores the vector | medium, not executed | `Vectors.RotateZeroFlips` | `Vectors.NewAtan2` |
| program_core/src/drawable/vector.rs:97 | `len *= c` also for negative `c` | `Vector2::new(1, 0).scale(-1)` has `len() == -1` | `len` stays the norm (`len *= abs(c)`) and the angle turns by `PI` for a negative factor. `len *= abs(c)` alone would not do: the signed `len` is what lets `rotate` rebuild the scaled coordinates, as `Vectors.ScaleKeepsPolarConsistent` shows | low, not executed | `Vectors.ScaleNegativeExample` | `Vectors.ScaleFixed` |
| program_core/src/drawable/circle.rs:79 | `scale` updates only the radius | `Circle::new((0, 0), 5).scale(2)` reports circumference `10·PI` for radius 10 | circumference and area follow the radius | medium, not executed | `Circles.ScaleByTwo` | `Circles.ScaleFixed` |
