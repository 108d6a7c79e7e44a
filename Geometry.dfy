/**
 * Geometry primitives of the launch-interceptor monitor (src/decide/helpers.py).
 *
 * Coordinates are real numbers. The source takes square roots in
 * calculate_distance; the model keeps squared distances and compares them
 * against squared bounds (DistGreater, DistLess, DistAtMost), and proves
 * that each comparison agrees with the one on the square root.
 */
module Geometry {
  import opened Wrappers

  datatype Point = Point(x: real, y: real)

  function Abs(r: real): (a: real)
    ensures a >= 0.0
    ensures a == r || a == -r
  {
    if r < 0.0 then -r else r
  }

  /**
   * A product kept as one term for the solver. The distance, square and
   * chord tests multiply through Mul; the shoelace and cross products,
   * the angle's scalar product and RatioEquality use `*` directly.
   */
  function Mul(x: real, y: real): real
  {
    x * y
  }

  /** x ** 2 */
  function Sq(a: real): real
  {
    Mul(a, a)
  }

  lemma MulPositive(x: real, y: real)
    requires x > 0.0 && y > 0.0
    ensures Mul(x, y) > 0.0
  {
  }

  lemma MulNegative(x: real, y: real)
    requires x < 0.0 && y < 0.0
    ensures Mul(x, y) > 0.0
  {
  }

  lemma MulMonotonic(x: real, y: real, z: real)
    requires x <= y && z >= 0.0
    ensures Mul(x, z) <= Mul(y, z)
  {
    if x < y && z > 0.0 {
      MulPositive(y - x, z);
      assert Mul(y - x, z) == Mul(y, z) - Mul(x, z);
    }
  }

  lemma MulStrictlyMonotonic(x: real, y: real, z: real)
    requires x < y && z > 0.0
    ensures Mul(x, z) < Mul(y, z)
  {
    MulPositive(y - x, z);
    assert Mul(y - x, z) == Mul(y, z) - Mul(x, z);
  }

  /** For c > 0, x / c > d exactly when x > d * c. */
  lemma DivisionComparison(x: real, c: real, d: real)
    requires c > 0.0
    ensures x / c > d <==> x > Mul(d, c)
  {
    var q := x / c;
    assert Mul(q, c) == x;
    if q > d {
      MulStrictlyMonotonic(d, q, c);
    } else {
      MulMonotonic(q, d, c);
    }
  }

  lemma SqOfProduct(a: real, b: real)
    ensures Sq(Mul(a, b)) == Mul(Sq(a), Sq(b))
  {
  }

  lemma SqOfAbs(a: real)
    ensures Sq(Abs(a)) == Sq(a)
  {
    if a < 0.0 {
      assert Mul(-a, -a) == Mul(a, a);
    }
  }

  lemma SqPositive(a: real)
    ensures Sq(a) >= 0.0
    ensures Sq(a) > 0.0 <==> a != 0.0
  {
    if a > 0.0 {
      MulPositive(a, a);
    } else if a < 0.0 {
      MulNegative(a, a);
    }
  }

  lemma SqMonotonic(b: real, d: real)
    requires 0.0 <= b < d
    ensures Sq(b) < Sq(d)
  {
    MulMonotonic(b, d, b);
    MulStrictlyMonotonic(b, d, d);
    assert Mul(d, b) == Mul(b, d);
  }

  /** For non-negative reals, comparing squares compares the numbers. */
  lemma SquaresOrdered(d: real, b: real)
    requires d >= 0.0 && b >= 0.0
    ensures d > b <==> Sq(d) > Sq(b)
    ensures d < b <==> Sq(d) < Sq(b)
  {
    if d > b {
      SqMonotonic(b, d);
    } else if d < b {
      SqMonotonic(d, b);
    }
  }

  /** The square of calculate_distance(p, q). */
  function DistSq(p: Point, q: Point): (d: real)
    ensures d >= 0.0
    ensures d > 0.0 <==> p != q
  {
    SqPositive(q.x - p.x);
    SqPositive(q.y - p.y);
    Sq(q.x - p.x) + Sq(q.y - p.y)
  }

  lemma DistSqSymmetric(p: Point, q: Point)
    ensures DistSq(p, q) == DistSq(q, p)
  {
    assert Sq(q.x - p.x) == Sq(p.x - q.x);
    assert Sq(q.y - p.y) == Sq(p.y - q.y);
  }

  /** calculate_distance(p, q) > bound, decided on squares. */
  predicate DistGreater(p: Point, q: Point, bound: real)
  {
    bound < 0.0 || DistSq(p, q) > Sq(bound)
  }

  /** calculate_distance(p, q) < bound, decided on squares. */
  predicate DistLess(p: Point, q: Point, bound: real)
  {
    bound > 0.0 && DistSq(p, q) < Sq(bound)
  }

  /** calculate_distance(p, q) <= bound, decided on squares. */
  predicate DistAtMost(p: Point, q: Point, bound: real)
  {
    bound >= 0.0 && DistSq(p, q) <= Sq(bound)
  }

  /**
   * Whatever non-negative d is the square root of DistSq(p, q), that is
   * the value calculate_distance returns, the three squared comparisons
   * agree with comparing d itself.
   */
  lemma DistanceComparisons(p: Point, q: Point, d: real, bound: real)
    requires d >= 0.0 && Sq(d) == DistSq(p, q)
    ensures DistGreater(p, q, bound) <==> d > bound
    ensures DistLess(p, q, bound) <==> d < bound
    ensures DistAtMost(p, q, bound) <==> d <= bound
  {
    if bound >= 0.0 {
      SquaresOrdered(d, bound);
    }
  }

  /** Twice the signed area of p1 p2 p3: the cross product of p1->p2 and p1->p3. */
  function Cross(p1: Point, p2: Point, p3: Point): real
  {
    (p2.x - p1.x) * (p3.y - p1.y) - (p3.x - p1.x) * (p2.y - p1.y)
  }

  predicate Collinear(p1: Point, p2: Point, p3: Point)
  {
    Cross(p1, p2, p3) == 0.0
  }

  /** The sum inside the absolute value of calculate_triangle_area. */
  function Shoelace(p1: Point, p2: Point, p3: Point): real
  {
    p1.x * (p2.y - p3.y) + p2.x * (p3.y - p1.y) + p3.x * (p1.y - p2.y)
  }

  /** The shoelace sum is the cross product, expanded term by term. */
  lemma ShoelaceIsCross(p1: Point, p2: Point, p3: Point)
    ensures Shoelace(p1, p2, p3) == Cross(p1, p2, p3)
  {
    var x1, y1, x2, y2, x3, y3 := p1.x, p1.y, p2.x, p2.y, p3.x, p3.y;
    assert x1 * (y2 - y3) == x1 * y2 - x1 * y3;
    assert x2 * (y3 - y1) == x2 * y3 - x2 * y1;
    assert x3 * (y1 - y2) == x3 * y1 - x3 * y2;
    assert (x2 - x1) * (y3 - y1) == x2 * y3 - x2 * y1 - x1 * y3 + x1 * y1;
    assert (x3 - x1) * (y2 - y1) == x3 * y2 - x3 * y1 - x1 * y2 + x1 * y1;
  }

  /** calculate_triangle_area: half the absolute value of the shoelace sum. */
  function TriangleArea(p1: Point, p2: Point, p3: Point): (area: real)
    ensures area >= 0.0
    ensures 2.0 * area == Abs(Cross(p1, p2, p3))
    ensures area == 0.0 <==> Collinear(p1, p2, p3)
  {
    ShoelaceIsCross(p1, p2, p3);
    0.5 * Abs(Shoelace(p1, p2, p3))
  }

  /** Two coincident vertices give a zero-area triangle. */
  lemma CoincidentVerticesHaveNoArea(p1: Point, p2: Point, p3: Point)
    requires p1 == p2 || p1 == p3 || p2 == p3
    ensures TriangleArea(p1, p2, p3) == 0.0
  {
  }

  /** The area does not depend on the order of the vertices. */
  lemma TriangleAreaPermutation(p1: Point, p2: Point, p3: Point)
    ensures TriangleArea(p1, p2, p3) == TriangleArea(p2, p1, p3)
    ensures TriangleArea(p1, p2, p3) == TriangleArea(p1, p3, p2)
    ensures TriangleArea(p1, p2, p3) == TriangleArea(p3, p2, p1)
    ensures TriangleArea(p1, p2, p3) == TriangleArea(p2, p3, p1)
  {
  }

  /**
   * calculate_angle: the angle at p2 between the rays to p1 and p3, or
   * None when one ray has length zero. The arc cosine is not modelled:
   * angleAt stands for it.
   */
  function CalculateAngle(p1: Point, p2: Point, p3: Point, angleAt: (Point, Point, Point) -> real): (r: Option<real>)
    ensures r.None? <==> (p1 == p2 || p3 == p2)
    ensures r.Some? ==> r.value == angleAt(p1, p2, p3)
  {
    var v1 := (p1.x - p2.x, p1.y - p2.y);
    var v2 := (p3.x - p2.x, p3.y - p2.y);
    // squares of norm_v1 and norm_v2; a norm is zero exactly when its
    // square, a sum of squares, is not positive
    var normSq1 := v1.0 * v1.0 + v1.1 * v1.1;
    var normSq2 := v2.0 * v2.0 + v2.1 * v2.1;
    assert normSq1 == DistSq(p2, p1) && normSq2 == DistSq(p2, p3);
    if normSq1 <= 0.0 || normSq2 <= 0.0 then None else Some(angleAt(p1, p2, p3))
  }

  function Midpoint(p: Point, q: Point): Point
  {
    Point((p.x + q.x) / 2.0, (p.y + q.y) / 2.0)
  }

  /** The slope of the segment p q, None for a vertical segment. */
  function Slope(p: Point, q: Point): Option<real>
  {
    if p.x != q.x then Some((q.y - p.y) / (q.x - p.x)) else None
  }

  /** First guard of calculate_circumcenter: two of the three midpoints coincide. */
  predicate MidpointsCoincide(p1: Point, p2: Point, p3: Point)
  {
    var midpoints := [Midpoint(p1, p2), Midpoint(p1, p3), Midpoint(p2, p3)];
    midpoints[0] in midpoints[1..] || midpoints[1] == midpoints[2]
  }

  /** Second guard of calculate_circumcenter: the chained k0 == k1 == k2. */
  predicate SlopesEqual(p1: Point, p2: Point, p3: Point)
  {
    Slope(p1, p2) == Slope(p1, p3) && Slope(p1, p3) == Slope(p2, p3)
  }

  lemma {:induction false} MidpointsCoincideIffPointsCoincide(p1: Point, p2: Point, p3: Point)
    ensures MidpointsCoincide(p1, p2, p3) <==> (p1 == p2 || p1 == p3 || p2 == p3)
  {
    var midpoints := [Midpoint(p1, p2), Midpoint(p1, p3), Midpoint(p2, p3)];
    assert midpoints[0] in midpoints[1..] <==> midpoints[0] == midpoints[1] || midpoints[0] == midpoints[2];
  }

  lemma RatioEquality(b: real, a: real, d: real, c: real)
    requires a != 0.0 && c != 0.0
    ensures b / a == d / c <==> a * d == c * b
  {
    var s, t := b / a, d / c;
    assert s * a == b && t * c == d;
    if s == t {
      assert a * d == a * (t * c) == c * (s * a);
    } else {
      assert a * d - c * b == a * c * (t - s);
      assert a * c != 0.0;
      assert a * c * (t - s) != 0.0;
    }
  }

  /** For three distinct points the slope test is exactly collinearity. */
  lemma {:induction false} SlopesEqualIffCollinear(p1: Point, p2: Point, p3: Point)
    requires p1 != p2 && p1 != p3 && p2 != p3
    ensures SlopesEqual(p1, p2, p3) <==> Collinear(p1, p2, p3)
  {
    var a, b := p2.x - p1.x, p2.y - p1.y;
    var c, d := p3.x - p1.x, p3.y - p1.y;
    assert Cross(p1, p2, p3) == a * d - c * b;
    if a == 0.0 {
      assert b != 0.0;
      assert Cross(p1, p2, p3) == -(c * b);
      if c != 0.0 { assert c * b != 0.0; }
    } else if c == 0.0 {
      assert d != 0.0;
      assert a * d != 0.0;
    } else if c == a {
      assert d - b != 0.0;
      assert Cross(p1, p2, p3) == a * (d - b);
      assert a * (d - b) != 0.0;
    } else {
      RatioEquality(b, a, d, c);
      RatioEquality(d - b, c - a, d, c);
      assert Slope(p2, p3) == Some((d - b) / (c - a));
    }
  }

  /**
   * calculate_circumcenter: None for a degenerate triangle, otherwise the
   * centre. The symbolic solve that finds the centre is not modelled:
   * centerOf stands for it. Both guards together reject exactly the
   * collinear triples (two coincident points included).
   */
  function CalculateCircumcenter(p1: Point, p2: Point, p3: Point, centerOf: (Point, Point, Point) -> Point): (r: Option<Point>)
    ensures r.None? <==> Collinear(p1, p2, p3)
    ensures r.Some? ==> r.value == centerOf(p1, p2, p3)
  {
    MidpointsCoincideIffPointsCoincide(p1, p2, p3);
    if MidpointsCoincide(p1, p2, p3) then
      None
    else
      SlopesEqualIffCollinear(p1, p2, p3);
      if SlopesEqual(p1, p2, p3) then None else Some(centerOf(p1, p2, p3))
  }
}
