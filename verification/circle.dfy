/**
 `Circle`: a center point and a radius, with the circumference and the area
 stored next to them. Each `Draw` method that takes `&mut self` becomes a
 function returning the updated circle.
 */
module Circles {
  import opened RealMath
  import opened Optional
  import Points

  datatype Circle = Circle(center: Points.Point2D, radius: real, circumference: real, area: real)

  /** The stored circumference is `2·PI·r` and the stored area `PI·r²`. */
  predicate Consistent(m: Lib, c: Circle) {
    c.circumference == 2.0 * m.pi * c.radius && c.area == m.pi * (c.radius * c.radius)
  }

  /** `Circle::new`: keeps the center and radius and derives the other two fields. */
  function New(m: Lib, center: Points.Point2D, radius: real): (c: Circle)
    ensures c.center == center && c.radius == radius
    ensures Consistent(m, c)
  {
    Circle(center, radius, 2.0 * m.pi * radius, m.pi * (radius * radius))
  }

  /** A circle of radius 5 has circumference `10·PI` and area `25·PI`. */
  lemma NewRadiusFive(m: Lib, center: Points.Point2D)
    ensures New(m, center, 5.0).circumference == 10.0 * m.pi
    ensures New(m, center, 5.0).area == 25.0 * m.pi
  {
  }

  /** `translate` as written: the center goes through `Point2D`'s `+=`, so its
      new `y` is `center.x + offset.y`; nothing else changes. */
  function Translate(c: Circle, offset: Points.Point2D): (r: Circle)
    ensures r.center == Points.New(c.center.x + offset.x, c.center.x + offset.y)
    ensures r.radius == c.radius && r.circumference == c.circumference && r.area == c.area
  {
    c.(center := Points.AddAssign(c.center, offset))
  }

  /** A circle at (0, 0) moved by (1, 1) is at (1, 1) with the same radius. */
  lemma TranslateFromOrigin(m: Lib)
    ensures Translate(New(m, Points.Origin, 5.0), Points.New(1.0, 1.0)).center == Points.New(1.0, 1.0)
    ensures Translate(New(m, Points.Origin, 5.0), Points.New(1.0, 1.0)).radius == 5.0
  {
  }

  /** A circle at (1, 0) "moved" by (0, 0) ends up at (1, 1). */
  lemma TranslateMisplaces(m: Lib)
    ensures Translate(New(m, Points.New(1.0, 0.0), 1.0), Points.Origin).center == Points.New(1.0, 1.0)
  {
  }

  lemma TranslateKeepsConsistent(m: Lib, c: Circle, offset: Points.Point2D)
    requires Consistent(m, c)
    ensures Consistent(m, Translate(c, offset))
  {
  }

  /** `translate` as evidently intended: the center moves by the offset. */
  function TranslateFixed(c: Circle, offset: Points.Point2D): (r: Circle)
    ensures r.center == Points.Add(c.center, offset)
    ensures r.radius == c.radius && r.circumference == c.circumference && r.area == c.area
  {
    c.(center := Points.AddAssignFixed(c.center, offset))
  }

  /** Moving by an offset and then by its opposite puts the circle back. */
  lemma TranslateFixedRoundTrip(c: Circle, offset: Points.Point2D)
    ensures TranslateFixed(TranslateFixed(c, offset), Points.New(-offset.x, -offset.y)) == c
  {
  }

  /** `rotate`: a circle is unchanged by any rotation. */
  function Rotate(c: Circle, angle: real): (r: Circle)
    ensures r == c
  {
    c
  }

  /** `scale` as written: the radius is multiplied by the factor (a zero factor
      is replaced by 1); the center and the stored circumference and area are kept. */
  function Scale(c: Circle, k: real): (r: Circle)
    ensures k == 0.0 ==> r == c
    ensures k != 0.0 ==> r.radius == k * c.radius
    ensures r.center == c.center
    ensures r.circumference == c.circumference && r.area == c.area
  {
    c.(radius := ScaleFactor(k) * c.radius)
  }

  /** Circle (0, 0), r = 5, scaled by 2: the center stays, the radius becomes 10,
      and the circumference still reads `10·PI`. */
  lemma ScaleByTwo(m: Lib)
    ensures Scale(New(m, Points.Origin, 5.0), 2.0).center == Points.Origin
    ensures Scale(New(m, Points.Origin, 5.0), 2.0).radius == 10.0
    ensures Scale(New(m, Points.Origin, 5.0), 2.0).circumference == 10.0 * m.pi
  {
  }

  /** Any real change of a non-zero radius leaves the circumference stale; the
      area still matches only for the factor -1, which keeps `r²`. */
  lemma ScaleLeavesStale(m: Lib, c: Circle, k: real)
    requires Valid(m)
    requires Consistent(m, c)
    requires c.radius != 0.0 && k != 0.0 && k != 1.0
    ensures Scale(c, k).circumference != 2.0 * m.pi * Scale(c, k).radius
    ensures Scale(c, k).area == m.pi * (Scale(c, k).radius * Scale(c, k).radius) <==> k == -1.0
  {
    var r := Scale(c, k);
    assert r.circumference - 2.0 * m.pi * r.radius == (2.0 * m.pi * c.radius) * (1.0 - k);
    NonZeroProduct(2.0 * m.pi * c.radius, 1.0 - k);
    assert r.area - m.pi * (r.radius * r.radius) == (m.pi * (c.radius * c.radius)) * ((1.0 - k) * (1.0 + k));
    NonZeroProduct(c.radius, c.radius);
    NonZeroProduct(m.pi, c.radius * c.radius);
    if k != -1.0 {
      NonZeroProduct(1.0 - k, 1.0 + k);
      NonZeroProduct(m.pi * (c.radius * c.radius), (1.0 - k) * (1.0 + k));
    }
  }

  /** `scale` as evidently intended: the derived fields follow the new radius. */
  function ScaleFixed(m: Lib, c: Circle, k: real): (r: Circle)
    ensures k != 0.0 ==> r.radius == k * c.radius
    ensures k == 0.0 ==> r.radius == c.radius
    ensures r.center == c.center
    ensures Consistent(m, r)
  {
    New(m, c.center, ScaleFactor(k) * c.radius)
  }

  /** The corrected scale by a zero factor changes nothing in a consistent circle. */
  lemma ScaleFixedZero(m: Lib, c: Circle)
    requires Consistent(m, c)
    ensures ScaleFixed(m, c, 0.0) == c
  {
  }

  /** `get_svg_tag_name`. */
  function TagName(c: Circle): (r: string)
    ensures r == "circle"
  {
    "circle"
  }

  /** `get_svg_tag_properties`: exactly the attributes `cx`, `cy` and `r`,
      holding the renderings of the center's coordinates and of the radius. */
  function TagProperties(m: Lib, c: Circle): (r: map<string, string>)
    ensures r.Keys == {"cx", "cy", "r"}
    ensures r["cx"] == m.show(c.center.x) && r["cy"] == m.show(c.center.y)
    ensures r["r"] == m.show(c.radius)
  {
    map["cx" := m.show(c.center.x), "cy" := m.show(c.center.y), "r" := m.show(c.radius)]
  }

  /** `get_svg_inner_content`: a circle tag has no inner content. */
  function InnerContent(c: Circle): (r: Option<string>)
    ensures r == None
  {
    None
  }

  /** After `translate` the `cy` attribute renders `center.x + offset.y`. */
  lemma TranslateShowsInProperties(m: Lib, c: Circle, offset: Points.Point2D)
    ensures TagProperties(m, Translate(c, offset))["cx"] == m.show(c.center.x + offset.x)
    ensures TagProperties(m, Translate(c, offset))["cy"] == m.show(c.center.x + offset.y)
    ensures TagProperties(m, Translate(c, offset))["r"] == TagProperties(m, c)["r"]
  {
  }

  /** `scale` changes only the `r` attribute. */
  lemma ScaleShowsInProperties(m: Lib, c: Circle, k: real)
    ensures TagProperties(m, Scale(c, k))["cx"] == TagProperties(m, c)["cx"]
    ensures TagProperties(m, Scale(c, k))["cy"] == TagProperties(m, c)["cy"]
    ensures TagProperties(m, Scale(c, k))["r"] == m.show(ScaleFactor(k) * c.radius)
  {
    assert Scale(c, k).radius == ScaleFactor(k) * c.radius;
  }
}
