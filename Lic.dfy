/**
 * The fifteen Launch Interceptor Conditions of src/decide/lic.py.
 *
 * Each condition is a method that scans index windows of the point list
 * left to right and returns on the first match, as the source does. Each
 * method is proved against a predicate LicNHolds that states the
 * condition as a guard and an existential over windows.
 *
 * Counts (Q_PTS, N_PTS, K_PTS, A_PTS ... G_PTS, QUADS) are natural
 * numbers. Distances are compared on squares (Geometry.DistGreater and
 * friends). The numeric results of acos, of the sympy circumcenter and
 * of Heron's circumradius are supplied through a Numerics value.
 */
module Lic {
  import opened Wrappers
  import opened Geometry

  /** math.pi */
  const Pi: real := 3.141592653589793

  /** The nineteen parameters of a Decide instance. */
  datatype Parameters = Parameters(
    length1: real, radius1: real, epsilon: real, area1: real,
    length2: real, radius2: real, area2: real,
    qPts: nat, quads: nat, dist: real, nPts: nat, kPts: nat,
    aPts: nat, bPts: nat, cPts: nat, dPts: nat,
    ePts: nat, fPts: nat, gPts: nat)

  /** Every parameter starts at 0 (src/decide/decide.py:20-38). */
  function DefaultParameters(): Parameters
  {
    Parameters(0.0, 0.0, 0.0, 0.0, 0.0, 0.0, 0.0, 0, 0, 0.0, 0, 0, 0, 0, 0, 0, 0, 0, 0)
  }

  /**
   * The numeric parts of the geometry that the model does not compute:
   * angleAt is the arc cosine of calculate_angle, centerOf the sympy
   * solve of calculate_circumcenter, and heronRadius the circumradius
   * d1*d2*d3/(4*area) of LIC 8.
   */
  datatype Numerics = Numerics(
    angleAt: (Point, Point, Point) -> real,
    centerOf: (Point, Point, Point) -> Point,
    heronRadius: (Point, Point, Point) -> real)

  // ---------------------------------------------------------------------
  // Pair windows: points i and i + gap + 1

  /** The pair (i, i + gap + 1) is in bounds and more than bound apart. */
  predicate LengthExceededAt(pts: seq<Point>, i: nat, gap: nat, bound: real)
  {
    i + gap + 1 < |pts| && DistGreater(pts[i], pts[i + gap + 1], bound)
  }

  /** The pair (i, i + gap + 1) is in bounds and less than bound apart. */
  predicate LengthBelowAt(pts: seq<Point>, i: nat, gap: nat, bound: real)
  {
    i + gap + 1 < |pts| && DistLess(pts[i], pts[i + gap + 1], bound)
  }

  /** The pair (i, j = i + gap + 1) is in bounds and X[j] - X[i] < 0. */
  predicate XDecreasesAt(pts: seq<Point>, i: nat, gap: nat)
  {
    i + gap + 1 < |pts| && pts[i + gap + 1].x - pts[i].x < 0.0
  }

  /** Some pair gap points apart is more than bound apart. */
  ghost predicate LengthExceededAtGap(pts: seq<Point>, gap: nat, bound: real)
  {
    exists i: nat :: LengthExceededAt(pts, i, gap, bound)
  }

  /** Some pair gap points apart is less than bound apart. */
  ghost predicate LengthBelowAtGap(pts: seq<Point>, gap: nat, bound: real)
  {
    exists i: nat :: LengthBelowAt(pts, i, gap, bound)
  }

  /** Some pair gap points apart has X[j] - X[i] < 0. */
  ghost predicate XDecreasesAtGap(pts: seq<Point>, gap: nat)
  {
    exists i: nat :: XDecreasesAt(pts, i, gap)
  }

  ghost predicate Lic0Holds(pts: seq<Point>, prm: Parameters)
  {
    |pts| >= 2 && LengthExceededAtGap(pts, 0, prm.length1)
  }

  /** LIC 0: two consecutive points more than LENGTH1 apart. */
  method Lic0(pts: seq<Point>, prm: Parameters) returns (met: bool)
    ensures met == Lic0Holds(pts, prm)
  {
    if |pts| < 2 {
      return false;
    }
    for index := 0 to |pts| - 1
      invariant forall i: nat :: i < index ==> !LengthExceededAt(pts, i, 0, prm.length1)
    {
      if DistGreater(pts[index], pts[index + 1], prm.length1) {
        assert LengthExceededAt(pts, index, 0, prm.length1);
        return true;
      }
    }
    return false;
  }

  ghost predicate Lic5Holds(pts: seq<Point>)
  {
    XDecreasesAtGap(pts, 0)
  }

  /** LIC 5: two consecutive points with x[i+1] - x[i] < 0. */
  method Lic5(pts: seq<Point>) returns (met: bool)
    ensures met == Lic5Holds(pts)
  {
    var index := 0;
    while index < |pts| - 1
      invariant 0 <= index
      invariant forall i: nat :: i < index ==> !XDecreasesAt(pts, i, 0)
    {
      if pts[index + 1].x - pts[index].x < 0.0 {
        assert XDecreasesAt(pts, index, 0);
        return true;
      }
      index := index + 1;
    }
    return false;
  }

  ghost predicate Lic7Guard(pts: seq<Point>, prm: Parameters)
  {
    |pts| >= 3 && |pts| - 2 >= prm.kPts && prm.kPts >= 1
  }

  ghost predicate Lic7Holds(pts: seq<Point>, prm: Parameters)
  {
    Lic7Guard(pts, prm) && LengthExceededAtGap(pts, prm.kPts, prm.length1)
  }

  /** LIC 7: two points K_PTS points apart, more than LENGTH1 apart. */
  method Lic7(pts: seq<Point>, prm: Parameters) returns (met: bool)
    ensures met == Lic7Holds(pts, prm)
  {
    if |pts| < 3 || |pts| - 2 < prm.kPts || prm.kPts < 1 {
      return false;
    }
    for index := 0 to |pts| - prm.kPts - 1
      invariant forall i: nat :: i < index ==> !LengthExceededAt(pts, i, prm.kPts, prm.length1)
    {
      if DistGreater(pts[index], pts[index + prm.kPts + 1], prm.length1) {
        assert LengthExceededAt(pts, index, prm.kPts, prm.length1);
        return true;
      }
    }
    return false;
  }

  ghost predicate Lic11Guard(numPoints: int, prm: Parameters)
  {
    numPoints >= 3 && prm.gPts >= 1 && prm.gPts <= numPoints - 2
  }

  ghost predicate Lic11Holds(pts: seq<Point>, numPoints: int, prm: Parameters)
  {
    Lic11Guard(numPoints, prm) && XDecreasesAtGap(pts, prm.gPts)
  }

  /** LIC 11: two points G_PTS points apart with X[j] - X[i] < 0. */
  method Lic11(pts: seq<Point>, numPoints: int, prm: Parameters) returns (met: bool)
    requires numPoints == |pts|
    ensures met == Lic11Holds(pts, numPoints, prm)
  {
    if numPoints < 3 || prm.gPts < 1 || prm.gPts > numPoints - 2 {
      return false;
    }
    for index := 0 to numPoints - prm.gPts - 1
      invariant forall i: nat :: i < index ==> !XDecreasesAt(pts, i, prm.gPts)
    {
      if pts[index + prm.gPts + 1].x - pts[index].x < 0.0 {
        assert XDecreasesAt(pts, index, prm.gPts);
        return true;
      }
    }
    return false;
  }

  ghost predicate Lic12Guard(numPoints: int, prm: Parameters)
  {
    numPoints >= 3 && prm.kPts >= 1 && prm.kPts <= numPoints - 2
    && prm.length1 >= 0.0 && prm.length2 >= 0.0
  }

  /** Both parts, possibly on different pairs. */
  ghost predicate Lic12Holds(pts: seq<Point>, numPoints: int, prm: Parameters)
  {
    Lic12Guard(numPoints, prm)
    && LengthExceededAtGap(pts, prm.kPts, prm.length1)
    && LengthBelowAtGap(pts, prm.kPts, prm.length2)
  }

  /**
   * LIC 12: a pair K_PTS points apart more than LENGTH1 apart, and a
   * pair K_PTS points apart less than LENGTH2 apart. Each flag stays set
   * once set.
   */
  method Lic12(pts: seq<Point>, numPoints: int, prm: Parameters) returns (met: bool)
    requires numPoints == |pts|
    ensures met == Lic12Holds(pts, numPoints, prm)
  {
    if numPoints < 3 || prm.kPts < 1 || prm.kPts > numPoints - 2 {
      return false;
    }
    if prm.length1 < 0.0 || prm.length2 < 0.0 {
      return false;
    }
    var largerThanLength1 := false;
    var smallerThanLength2 := false;
    var k := prm.kPts;
    for index := 0 to numPoints - k - 1
      invariant largerThanLength1 <==> exists i: nat :: i < index && LengthExceededAt(pts, i, k, prm.length1)
      invariant smallerThanLength2 <==> exists i: nat :: i < index && LengthBelowAt(pts, i, k, prm.length2)
      invariant !(largerThanLength1 && smallerThanLength2)
    {
      var p1, p2 := pts[index], pts[index + k + 1];
      assert LengthExceededAt(pts, index, k, prm.length1) == DistGreater(p1, p2, prm.length1);
      assert LengthBelowAt(pts, index, k, prm.length2) == DistLess(p1, p2, prm.length2);
      if !largerThanLength1 && DistGreater(p1, p2, prm.length1) {
        largerThanLength1 := true;
      }
      if !smallerThanLength2 && DistLess(p1, p2, prm.length2) {
        smallerThanLength2 := true;
      }
      if largerThanLength1 && smallerThanLength2 {
        return true;
      }
    }
    return false;
  }

  // ---------------------------------------------------------------------
  // Triple windows: points i, i + e + 1 and i + e + f + 2

  /** Some side of the triangle is longer than bound: max(...) > bound. */
  predicate SomeSideLonger(p1: Point, p2: Point, p3: Point, bound: real)
  {
    DistGreater(p1, p2, bound) || DistGreater(p1, p3, bound) || DistGreater(p2, p3, bound)
  }

  /** No side of the triangle is longer than bound: max(...) <= bound. */
  predicate AllSidesAtMost(p1: Point, p2: Point, p3: Point, bound: real)
  {
    DistAtMost(p1, p2, bound) && DistAtMost(p1, p3, bound) && DistAtMost(p2, p3, bound)
  }

  /**
   * distances.index(max(distances)) for d0, d1, d2: the first index at
   * which the maximum is found.
   */
  function LongestSide(d0: real, d1: real, d2: real): (r: nat)
    ensures r < 3
    ensures r == 0 <==> d0 >= d1 && d0 >= d2
    ensures r == 1 <==> d1 > d0 && d1 >= d2
    ensures r == 2 <==> d2 > d0 && d2 > d1
  {
    if d0 >= d1 && d0 >= d2 then 0 else if d1 >= d2 then 1 else 2
  }

  /**
   * Side lengths and their squares have their longest side at the same
   * index, so LongestSide may be taken on squared distances.
   */
  lemma LongestSideOfSquares(d0: real, d1: real, d2: real)
    requires d0 >= 0.0 && d1 >= 0.0 && d2 >= 0.0
    ensures LongestSide(Sq(d0), Sq(d1), Sq(d2)) == LongestSide(d0, d1, d2)
  {
    SquaresOrdered(d0, d1);
    SquaresOrdered(d0, d2);
    SquaresOrdered(d1, d2);
  }

  /** The circumcenter exists and lies farther than r from p1. */
  predicate CircumradiusGreater(p1: Point, p2: Point, p3: Point, r: real, num: Numerics)
  {
    match CalculateCircumcenter(p1, p2, p3, num.centerOf)
    case Some(c) => DistGreater(c, p1, r)
    case None => false
  }

  /** The circumcenter exists and lies nearer than r to p1. */
  predicate CircumradiusLess(p1: Point, p2: Point, p3: Point, r: real, num: Numerics)
  {
    match CalculateCircumcenter(p1, p2, p3, num.centerOf)
    case Some(c) => DistLess(c, p1, r)
    case None => false
  }

  /** LIC 1 test on one triple: it cannot be contained in a circle of radius r. */
  predicate NotInCircle1(p1: Point, p2: Point, p3: Point, r: real, num: Numerics)
  {
    SomeSideLonger(p1, p2, p3, 2.0 * r) || CircumradiusGreater(p1, p2, p3, r, num)
  }

  predicate NotInCircle1At(pts: seq<Point>, i: nat, r: real, num: Numerics)
  {
    i + 2 < |pts| && NotInCircle1(pts[i], pts[i + 1], pts[i + 2], r, num)
  }

  ghost predicate Lic1Holds(pts: seq<Point>, prm: Parameters, num: Numerics)
  {
    |pts| >= 3 && exists i: nat :: NotInCircle1At(pts, i, prm.radius1, num)
  }

  /** LIC 1: three consecutive points not contained in a circle of radius RADIUS1. */
  method Lic1(pts: seq<Point>, prm: Parameters, num: Numerics) returns (met: bool)
    ensures met == Lic1Holds(pts, prm, num)
  {
    if |pts| < 3 {
      return false;
    }
    for index := 0 to |pts| - 2
      invariant forall i: nat :: i < index ==> !NotInCircle1At(pts, i, prm.radius1, num)
    {
      var p1, p2, p3 := pts[index], pts[index + 1], pts[index + 2];
      assert NotInCircle1At(pts, index, prm.radius1, num) == NotInCircle1(p1, p2, p3, prm.radius1, num);
      var dist1 := DistGreater(p1, p2, 2.0 * prm.radius1);
      var dist2 := DistGreater(p1, p3, 2.0 * prm.radius1);
      var dist3 := DistGreater(p2, p3, 2.0 * prm.radius1);
      if dist1 || dist2 || dist3 {
        return true;
      }
      var circumcenter := CalculateCircumcenter(p1, p2, p3, num.centerOf);
      if circumcenter.Some? && DistGreater(circumcenter.value, p1, prm.radius1) {
        return true;
      }
    }
    return false;
  }

  /** LIC 2 test: the angle exists and is below pi - eps or above pi + eps. */
  predicate AngleOutside(p1: Point, p2: Point, p3: Point, eps: real, num: Numerics)
  {
    match CalculateAngle(p1, p2, p3, num.angleAt)
    case Some(angle) => angle < Pi - eps || angle > Pi + eps
    case None => false
  }

  predicate AngleOutsideAt(pts: seq<Point>, i: nat, eps: real, num: Numerics)
  {
    i + 2 < |pts| && AngleOutside(pts[i], pts[i + 1], pts[i + 2], eps, num)
  }

  ghost predicate Lic2Holds(pts: seq<Point>, prm: Parameters, num: Numerics)
  {
    exists i: nat :: AngleOutsideAt(pts, i, prm.epsilon, num)
  }

  /** LIC 2: three consecutive points whose angle lies outside [pi - EPSILON, pi + EPSILON]. */
  method Lic2(pts: seq<Point>, prm: Parameters, num: Numerics) returns (met: bool)
    ensures met == Lic2Holds(pts, prm, num)
  {
    var i := 0;
    while i < |pts| - 2
      invariant 0 <= i
      invariant forall j: nat :: j < i ==> !AngleOutsideAt(pts, j, prm.epsilon, num)
    {
      assert AngleOutsideAt(pts, i, prm.epsilon, num) == AngleOutside(pts[i], pts[i + 1], pts[i + 2], prm.epsilon, num);
      var angle := CalculateAngle(pts[i], pts[i + 1], pts[i + 2], num.angleAt);
      if angle.Some? && (angle.value < Pi - prm.epsilon || angle.value > Pi + prm.epsilon) {
        return true;
      }
      i := i + 1;
    }
    return false;
  }

  /** LIC 3 test: a non-zero area above the bound. */
  predicate AreaAboveSkippingZero(p1: Point, p2: Point, p3: Point, area1: real)
  {
    var area := TriangleArea(p1, p2, p3);
    area != 0.0 && area > area1
  }

  predicate AreaAboveSkippingZeroAt(pts: seq<Point>, i: nat, area1: real)
  {
    i + 2 < |pts| && AreaAboveSkippingZero(pts[i], pts[i + 1], pts[i + 2], area1)
  }

  ghost predicate Lic3Holds(pts: seq<Point>, prm: Parameters)
  {
    exists i: nat :: AreaAboveSkippingZeroAt(pts, i, prm.area1)
  }

  /** LIC 3: three consecutive points forming a triangle of area greater than AREA1; zero areas are skipped. */
  method Lic3(pts: seq<Point>, prm: Parameters) returns (met: bool)
    ensures met == Lic3Holds(pts, prm)
  {
    var i := 0;
    while i < |pts| - 2
      invariant 0 <= i
      invariant forall j: nat :: j < i ==> !AreaAboveSkippingZeroAt(pts, j, prm.area1)
    {
      assert AreaAboveSkippingZeroAt(pts, i, prm.area1) == AreaAboveSkippingZero(pts[i], pts[i + 1], pts[i + 2], prm.area1);
      var area := TriangleArea(pts[i], pts[i + 1], pts[i + 2]);
      if area != 0.0 && area > prm.area1 {
        return true;
      }
      i := i + 1;
    }
    return false;
  }

  /**
   * LIC 8 test on one triple: a side longer than 2 * RADIUS1, or a
   * triangle of non-zero area whose circumradius exceeds RADIUS1.
   * dist2 and dist3 are measured from p3, as in the source.
   */
  predicate NotInCircle8(p1: Point, p2: Point, p3: Point, r: real, num: Numerics)
  {
    DistGreater(p1, p2, 2.0 * r) || DistGreater(p3, p1, 2.0 * r) || DistGreater(p3, p2, 2.0 * r)
    || (TriangleArea(p1, p2, p3) != 0.0 && num.heronRadius(p1, p2, p3) > r)
  }

  ghost predicate Lic8Guard(pts: seq<Point>, prm: Parameters)
  {
    |pts| >= 5 && prm.aPts >= 1 && prm.bPts >= 1 && prm.aPts + prm.bPts <= |pts| - 3
  }

  predicate NotInCircle8At(pts: seq<Point>, i: nat, prm: Parameters, num: Numerics)
  {
    var a, b := prm.aPts, prm.bPts;
    i + a + b + 2 < |pts| && NotInCircle8(pts[i], pts[i + a + 1], pts[i + a + b + 2], prm.radius1, num)
  }

  ghost predicate Lic8Holds(pts: seq<Point>, prm: Parameters, num: Numerics)
  {
    Lic8Guard(pts, prm) && exists i: nat :: NotInCircle8At(pts, i, prm, num)
  }

  /** LIC 8: three points A_PTS and B_PTS apart not contained in a circle of radius RADIUS1. */
  method Lic8(pts: seq<Point>, prm: Parameters, num: Numerics) returns (met: bool)
    ensures met == Lic8Holds(pts, prm, num)
  {
    if |pts| < 5 || prm.aPts < 1 || prm.bPts < 1 || prm.aPts + prm.bPts > |pts| - 3 {
      return false;
    }
    var a, b := prm.aPts, prm.bPts;
    for i := 0 to |pts| - a - b - 2
      invariant forall j: nat :: j < i ==> !NotInCircle8At(pts, j, prm, num)
    {
      var p1, p2, p3 := pts[i], pts[i + a + 1], pts[i + a + b + 2];
      assert NotInCircle8At(pts, i, prm, num) == NotInCircle8(p1, p2, p3, prm.radius1, num);
      if DistGreater(p1, p2, 2.0 * prm.radius1) || DistGreater(p3, p1, 2.0 * prm.radius1)
        || DistGreater(p3, p2, 2.0 * prm.radius1)
      {
        return true;
      }
      var area := TriangleArea(p1, p2, p3);
      if area != 0.0 && num.heronRadius(p1, p2, p3) > prm.radius1 {
        return true;
      }
    }
    return false;
  }

  /** LIC 9 test: the angle exists and |angle - pi| > eps. */
  predicate AngleFarFromPi(p1: Point, p2: Point, p3: Point, eps: real, num: Numerics)
  {
    match CalculateAngle(p1, p2, p3, num.angleAt)
    case Some(angle) => Abs(angle - Pi) > eps
    case None => false
  }

  ghost predicate Lic9Guard(pts: seq<Point>, prm: Parameters)
  {
    |pts| >= 3 + prm.cPts + prm.dPts && prm.cPts >= 1 && prm.dPts >= 1
  }

  predicate AngleFarFromPiAt(pts: seq<Point>, i: nat, prm: Parameters, num: Numerics)
  {
    var c, d := prm.cPts, prm.dPts;
    i + c + d + 2 < |pts| && AngleFarFromPi(pts[i], pts[i + c + 1], pts[i + c + d + 2], prm.epsilon, num)
  }

  ghost predicate Lic9Holds(pts: seq<Point>, prm: Parameters, num: Numerics)
  {
    Lic9Guard(pts, prm) && exists i: nat :: AngleFarFromPiAt(pts, i, prm, num)
  }

  /** LIC 9: three points C_PTS and D_PTS apart whose angle differs from pi by more than EPSILON. */
  method Lic9(pts: seq<Point>, prm: Parameters, num: Numerics) returns (met: bool)
    ensures met == Lic9Holds(pts, prm, num)
  {
    if |pts| < 3 + prm.cPts + prm.dPts || prm.cPts < 1 || prm.dPts < 1 {
      return false;
    }
    var c, d := prm.cPts, prm.dPts;
    for index := 0 to |pts| - c - d - 2
      invariant forall j: nat :: j < index ==> !AngleFarFromPiAt(pts, j, prm, num)
    {
      assert AngleFarFromPiAt(pts, index, prm, num) == AngleFarFromPi(pts[index], pts[index + c + 1], pts[index + c + d + 2], prm.epsilon, num);
      var angle := CalculateAngle(pts[index], pts[index + c + 1], pts[index + c + d + 2], num.angleAt);
      if angle.Some? && Abs(angle.value - Pi) > prm.epsilon {
        return true;
      }
    }
    return false;
  }

  ghost predicate Lic10Guard(numPoints: int, prm: Parameters)
  {
    numPoints >= 5 && prm.ePts + prm.fPts <= numPoints - 3 && prm.ePts >= 1 && prm.fPts >= 1
  }

  predicate AreaAbove(p1: Point, p2: Point, p3: Point, bound: real)
  {
    TriangleArea(p1, p2, p3) > bound
  }

  predicate AreaBelow(p1: Point, p2: Point, p3: Point, bound: real)
  {
    TriangleArea(p1, p2, p3) < bound
  }

  /** The triple starting at i, E_PTS/F_PTS-separated, is in bounds and has area above bound. */
  predicate AreaAboveAt(pts: seq<Point>, i: nat, e: nat, f: nat, bound: real)
  {
    i + e + f + 2 < |pts| && AreaAbove(pts[i], pts[i + e + 1], pts[i + e + f + 2], bound)
  }

  /** The triple starting at i, E_PTS/F_PTS-separated, is in bounds and has area below bound. */
  predicate AreaBelowAt(pts: seq<Point>, i: nat, e: nat, f: nat, bound: real)
  {
    i + e + f + 2 < |pts| && AreaBelow(pts[i], pts[i + e + 1], pts[i + e + f + 2], bound)
  }

  /** Some E_PTS/F_PTS-separated triple has area above bound. */
  ghost predicate AreaAboveAtGaps(pts: seq<Point>, e: nat, f: nat, bound: real)
  {
    exists i: nat :: AreaAboveAt(pts, i, e, f, bound)
  }

  /** Some E_PTS/F_PTS-separated triple has area below bound. */
  ghost predicate AreaBelowAtGaps(pts: seq<Point>, e: nat, f: nat, bound: real)
  {
    exists i: nat :: AreaBelowAt(pts, i, e, f, bound)
  }

  ghost predicate Lic10Holds(pts: seq<Point>, numPoints: int, prm: Parameters)
  {
    Lic10Guard(numPoints, prm) && AreaAboveAtGaps(pts, prm.ePts, prm.fPts, prm.area1)
  }

  /** LIC 10: three points E_PTS and F_PTS apart forming a triangle of area greater than AREA1. */
  method Lic10(pts: seq<Point>, numPoints: int, prm: Parameters) returns (met: bool)
    requires numPoints == |pts|
    ensures met == Lic10Holds(pts, numPoints, prm)
  {
    if numPoints < 5 || prm.ePts + prm.fPts > numPoints - 3 {
      return false;
    }
    if prm.ePts < 1 || prm.fPts < 1 {
      return false;
    }
    var e, f := prm.ePts, prm.fPts;
    for index := 0 to numPoints - e - f - 2
      invariant forall j: nat :: j < index ==> !AreaAboveAt(pts, j, e, f, prm.area1)
    {
      if AreaAbove(pts[index], pts[index + e + 1], pts[index + e + f + 2], prm.area1) {
        assert AreaAboveAt(pts, index, e, f, prm.area1);
        return true;
      }
    }
    return false;
  }

  /**
   * LIC 13 condition B through the longest side: no side is longer than
   * 2 * RADIUS2, and the point opposite the first longest side is within
   * 2 * RADIUS2 of that side's midpoint.
   */
  predicate MidpointCircleFits(p1: Point, p2: Point, p3: Point, r2: real)
  {
    AllSidesAtMost(p1, p2, p3, 2.0 * r2)
    && var longest := LongestSide(DistSq(p1, p2), DistSq(p1, p3), DistSq(p2, p3));
       if longest == 0 then DistAtMost(Midpoint(p1, p2), p3, 2.0 * r2)
       else if longest == 1 then DistAtMost(Midpoint(p1, p3), p2, 2.0 * r2)
       else DistAtMost(Midpoint(p2, p3), p1, 2.0 * r2)
  }

  /** LIC 13 condition A on one triple. */
  predicate Lic13A(p1: Point, p2: Point, p3: Point, prm: Parameters, num: Numerics)
  {
    SomeSideLonger(p1, p2, p3, 2.0 * prm.radius1) || CircumradiusGreater(p1, p2, p3, prm.radius1, num)
  }

  /** LIC 13 condition B on one triple. */
  predicate Lic13B(p1: Point, p2: Point, p3: Point, prm: Parameters, num: Numerics)
  {
    MidpointCircleFits(p1, p2, p3, prm.radius2) || CircumradiusLess(p1, p2, p3, prm.radius2, num)
  }

  /** Condition A on the A_PTS/B_PTS-separated triple starting at i, which is in bounds. */
  predicate Lic13AAt(pts: seq<Point>, i: nat, prm: Parameters, num: Numerics)
  {
    var a, b := prm.aPts, prm.bPts;
    i + a + b + 2 < |pts| && Lic13A(pts[i], pts[i + a + 1], pts[i + a + b + 2], prm, num)
  }

  /** Condition B on the A_PTS/B_PTS-separated triple starting at i, which is in bounds. */
  predicate Lic13BAt(pts: seq<Point>, i: nat, prm: Parameters, num: Numerics)
  {
    var a, b := prm.aPts, prm.bPts;
    i + a + b + 2 < |pts| && Lic13B(pts[i], pts[i + a + 1], pts[i + a + b + 2], prm, num)
  }

  ghost predicate Lic13Guard(pts: seq<Point>, prm: Parameters)
  {
    |pts| >= prm.aPts + prm.bPts + 3 && |pts| >= 5 && prm.aPts >= 1 && prm.bPts >= 1
  }

  /** Conditions A and B, possibly on different triples. */
  ghost predicate Lic13Holds(pts: seq<Point>, prm: Parameters, num: Numerics)
  {
    var a, b := prm.aPts, prm.bPts;
    Lic13Guard(pts, prm)
    && (exists i: nat :: Lic13AAt(pts, i, prm, num))
    && (exists i: nat :: Lic13BAt(pts, i, prm, num))
  }

  /**
   * The body of the LIC 13 loop for one triple: whether this triple meets
   * condition A and condition B.
   */
  method Lic13Window(p1: Point, p2: Point, p3: Point, prm: Parameters, num: Numerics)
    returns (conditionA: bool, conditionB: bool, centerFound: bool)
    ensures conditionA == Lic13A(p1, p2, p3, prm, num)
    ensures conditionB == Lic13B(p1, p2, p3, prm, num)
    ensures centerFound == !Collinear(p1, p2, p3)
  {
    conditionA, conditionB := false, false;
    if SomeSideLonger(p1, p2, p3, 2.0 * prm.radius1) {
      conditionA := true;
    }
    if AllSidesAtMost(p1, p2, p3, 2.0 * prm.radius2) {
      var maxIndex := LongestSide(DistSq(p1, p2), DistSq(p1, p3), DistSq(p2, p3));
      if maxIndex == 0 {
        var center := Midpoint(p1, p2);
        if DistAtMost(center, p3, 2.0 * prm.radius2) {
          conditionB := true;
        }
      } else if maxIndex == 1 {
        var center := Midpoint(p1, p3);
        if DistAtMost(center, p2, 2.0 * prm.radius2) {
          conditionB := true;
        }
      } else {
        var center := Midpoint(p2, p3);
        if DistAtMost(center, p1, 2.0 * prm.radius2) {
          conditionB := true;
        }
      }
    }
    var circumcenter := CalculateCircumcenter(p1, p2, p3, num.centerOf);
    centerFound := circumcenter.Some?;
    if circumcenter.Some? {
      if DistGreater(circumcenter.value, p1, prm.radius1) {
        conditionA := true;
      }
      if DistLess(circumcenter.value, p1, prm.radius2) {
        conditionB := true;
      }
    }
  }

  /** LIC 13: condition A with RADIUS1 and condition B with RADIUS2 over A_PTS/B_PTS-separated triples. */
  method Lic13(pts: seq<Point>, prm: Parameters, num: Numerics) returns (met: bool)
    ensures met == Lic13Holds(pts, prm, num)
  {
    if |pts| < prm.aPts + prm.bPts + 3 || |pts| < 5 || prm.aPts < 1 || prm.bPts < 1 {
      return false;
    }
    var a, b := prm.aPts, prm.bPts;
    var conditionA := false;
    var conditionB := false;
    for index := 0 to |pts| - a - b - 2
      invariant conditionA <==> exists i: nat :: i < index && Lic13AAt(pts, i, prm, num)
      invariant conditionB <==> exists i: nat :: i < index && Lic13BAt(pts, i, prm, num)
    {
      var p1, p2, p3 := pts[index], pts[index + a + 1], pts[index + a + b + 2];
      var windowA, windowB, centerFound := Lic13Window(p1, p2, p3, prm, num);
      assert windowA == Lic13AAt(pts, index, prm, num);
      assert windowB == Lic13BAt(pts, index, prm, num);
      conditionA := conditionA || windowA;
      conditionB := conditionB || windowB;
      // the source tests both flags only after a circumcenter was found
      if centerFound && conditionA && conditionB {
        return true;
      }
    }
    if conditionA && conditionB {
      return true;
    }
    return false;
  }

  ghost predicate Lic14Guard(pts: seq<Point>, prm: Parameters)
  {
    |pts| >= 5 && prm.area2 >= 0.0
  }

  /** Both areas, possibly on different triples. */
  ghost predicate Lic14Holds(pts: seq<Point>, prm: Parameters)
  {
    Lic14Guard(pts, prm)
    && AreaAboveAtGaps(pts, prm.ePts, prm.fPts, prm.area1)
    && AreaBelowAtGaps(pts, prm.ePts, prm.fPts, prm.area2)
  }

  /**
   * LIC 14: a triple E_PTS and F_PTS apart with area greater than AREA1,
   * and one with area less than AREA2. The indices are bounds-checked
   * inside the loop.
   */
  method Lic14(pts: seq<Point>, prm: Parameters) returns (met: bool)
    ensures met == Lic14Holds(pts, prm)
  {
    var numPoints := |pts|;
    if numPoints < 5 || prm.area2 < 0.0 {
      return false;
    }
    var conditionAMet := false;
    var conditionBMet := false;
    var e, f := prm.ePts, prm.fPts;
    for i := 0 to numPoints
      invariant conditionAMet <==>
        exists i': nat :: i' < i && AreaAboveAt(pts, i', e, f, prm.area1)
      invariant conditionBMet <==>
        exists i': nat :: i' < i && AreaBelowAt(pts, i', e, f, prm.area2)
      invariant !(conditionAMet && conditionBMet)
    {
      var j := i + e + 1;
      var k := j + f + 1;
      assert AreaAboveAt(pts, i, e, f, prm.area1) <==> k < numPoints && AreaAbove(pts[i], pts[j], pts[k], prm.area1);
      assert AreaBelowAt(pts, i, e, f, prm.area2) <==> k < numPoints && AreaBelow(pts[i], pts[j], pts[k], prm.area2);
      if k < numPoints {
        var p1, p2, p3 := pts[i], pts[j], pts[k];
        if !conditionAMet && AreaAbove(p1, p2, p3, prm.area1) {
          conditionAMet := true;
        }
        if !conditionBMet && AreaBelow(p1, p2, p3, prm.area2) {
          conditionBMet := true;
        }
        if conditionAMet && conditionBMet {
          return true;
        }
      }
    }
    return conditionAMet && conditionBMet;
  }

  // ---------------------------------------------------------------------
  // LIC 4: quadrants of Q_PTS consecutive points

  /**
   * The label quadrants.add gives one point. The origin and the positive
   * x axis belong to quadrant 1; the negative x axis and the negative y
   * axis get no label.
   */
  function QuadrantLabel(p: Point): (q: set<nat>)
    ensures q <= {1, 2, 3, 4}
  {
    if p.x >= 0.0 && p.y >= 0.0 then {1}
    else if p.x < 0.0 && p.y > 0.0 then {2}
    else if p.x < 0.0 && p.y < 0.0 then {3}
    else if p.x > 0.0 && p.y < 0.0 then {4}
    else {}
  }

  /**
   * Every point gets at most one label; quadrant 1 takes the origin and
   * both non-negative half axes; exactly the negative x axis and the
   * negative y axis stay unlabelled.
   */
  lemma QuadrantLabelRule(p: Point)
    ensures |QuadrantLabel(p)| <= 1
    ensures 1 in QuadrantLabel(p) <==> p.x >= 0.0 && p.y >= 0.0
    ensures QuadrantLabel(p) == {} <==> (p.x < 0.0 && p.y == 0.0) || (p.x == 0.0 && p.y < 0.0)
  {
  }

  /** The set of labels of the points of s. */
  function QuadrantsOf(s: seq<Point>): (q: set<nat>)
    ensures q <= {1, 2, 3, 4}
  {
    if s == [] then {} else QuadrantsOf(s[..|s| - 1]) + QuadrantLabel(s[|s| - 1])
  }

  /** A label is in QuadrantsOf(s) exactly when some point of s carries it. */
  lemma {:induction false} QuadrantsOfMembers(s: seq<Point>, k: nat)
    ensures k in QuadrantsOf(s) <==> exists j :: 0 <= j < |s| && k in QuadrantLabel(s[j])
  {
    if s != [] {
      var init := s[..|s| - 1];
      QuadrantsOfMembers(init, k);
      assert forall j :: 0 <= j < |init| ==> init[j] == s[j];
    }
  }

  /** The Q_PTS points starting at i are in bounds and carry more than quads labels. */
  predicate QuadsExceededAt(pts: seq<Point>, i: nat, q: nat, quads: nat)
  {
    i + q <= |pts| && |QuadrantsOf(pts[i..i + q])| > quads
  }

  ghost predicate Lic4Holds(pts: seq<Point>, prm: Parameters)
  {
    prm.qPts > 0 && |pts| >= prm.qPts
    && exists i: nat :: QuadsExceededAt(pts, i, prm.qPts, prm.quads)
  }

  lemma QuadrantsOfAppend(s: seq<Point>, p: Point)
    ensures QuadrantsOf(s + [p]) == QuadrantsOf(s) + QuadrantLabel(p)
  {
    assert (s + [p])[..|s|] == s;
  }

  /** The inner loop of LIC 4: the labels of the q points starting at i. */
  method WindowQuadrants(pts: seq<Point>, i: nat, q: nat) returns (quadrants: set<nat>)
    requires i + q <= |pts|
    ensures quadrants == QuadrantsOf(pts[i..i + q])
  {
    quadrants := {};
    for j := i to i + q
      invariant quadrants == QuadrantsOf(pts[i..j])
    {
      var p := pts[j];
      assert pts[i..j + 1] == pts[i..j] + [p];
      QuadrantsOfAppend(pts[i..j], p);
      if p.x >= 0.0 && p.y >= 0.0 {
        quadrants := quadrants + {1};
      } else if p.x < 0.0 && p.y > 0.0 {
        quadrants := quadrants + {2};
      } else if p.x < 0.0 && p.y < 0.0 {
        quadrants := quadrants + {3};
      } else if p.x > 0.0 && p.y < 0.0 {
        quadrants := quadrants + {4};
      }
    }
  }

  /** LIC 4: Q_PTS consecutive points lying in more than QUADS quadrants. */
  method Lic4(pts: seq<Point>, prm: Parameters) returns (met: bool)
    ensures met == Lic4Holds(pts, prm)
  {
    if prm.qPts <= 0 || |pts| < prm.qPts {
      return false;
    }
    var q := prm.qPts;
    for i := 0 to |pts| - q + 1
      invariant forall i': nat :: i' < i ==> !QuadsExceededAt(pts, i', q, prm.quads)
    {
      var quadrants := WindowQuadrants(pts, i, q);
      if |quadrants| > prm.quads {
        assert QuadsExceededAt(pts, i, q, prm.quads);
        return true;
      }
    }
    return false;
  }

  lemma {:induction false} SubsetCardinality(a: set<nat>, b: set<nat>)
    requires a <= b
    ensures |a| <= |b|
  {
    if a != {} {
      var x :| x in a;
      SubsetCardinality(a - {x}, b - {x});
    }
  }

  /** At most four labels exist, so LIC 4 never holds when QUADS >= 4. */
  lemma Lic4NeedsFewerThanFourQuads(pts: seq<Point>, prm: Parameters)
    requires prm.quads >= 4
    ensures !Lic4Holds(pts, prm)
  {
    forall i: nat
      ensures !QuadsExceededAt(pts, i, prm.qPts, prm.quads)
    {
      if i + prm.qPts <= |pts| {
        var all: set<nat> := {1, 2, 3, 4};
        assert |all| == 4;
        SubsetCardinality(QuadrantsOf(pts[i..i + prm.qPts]), all);
      }
    }
  }

  // ---------------------------------------------------------------------
  // LIC 6: distance from the line through the ends of N_PTS consecutive points

  /**
   * The numerator, before abs, of the distance from p to the line through
   * p1 and p2 (src/decide/lic.py:166-169).
   */
  function ChordCross(p1: Point, p2: Point, p: Point): real
  {
    Mul(p2.x - p1.x, p1.y - p.y) - Mul(p1.x - p.x, p2.y - p1.y)
  }

  /** |ChordCross| / |p1 p2| > dist, stated on squares for dist >= 0. */
  predicate FarFromChord(p1: Point, p2: Point, p: Point, dist: real)
  {
    Sq(ChordCross(p1, p2, p)) > Mul(Sq(dist), DistSq(p1, p2))
  }

  /** The LIC 6 test for one interior point p of a window with ends p1 and p2. */
  predicate FarFromWindowEnds(p1: Point, p2: Point, p: Point, dist: real)
  {
    if p1 == p2 then DistGreater(p1, p, dist) else FarFromChord(p1, p2, p, dist)
  }

  /** Point j is interior to the window of n points starting at i, and far from its ends. */
  predicate Lic6At(pts: seq<Point>, i: nat, j: nat, n: nat, dist: real)
  {
    i + n <= |pts| && i + 1 <= j < i + n - 1 && FarFromWindowEnds(pts[i], pts[i + n - 1], pts[j], dist)
  }

  ghost predicate Lic6Guard(pts: seq<Point>, prm: Parameters)
  {
    |pts| >= 3 && prm.nPts <= |pts| && prm.dist >= 0.0
  }

  ghost predicate Lic6Holds(pts: seq<Point>, prm: Parameters)
  {
    Lic6Guard(pts, prm) && exists i: nat, j: nat :: Lic6At(pts, i, j, prm.nPts, prm.dist)
  }

  /**
   * The inner loops of LIC 6: some point with index in [lo, hi) is far
   * from the window ends p1 and p2. The source tests p1 == p2 once and
   * then runs one of two loops.
   */
  method FarPointInWindow(pts: seq<Point>, p1: Point, p2: Point, lo: nat, hi: int, dist: real) returns (found: bool)
    requires hi <= |pts|
    ensures found <==> exists j :: lo <= j < hi && FarFromWindowEnds(p1, p2, pts[j], dist)
  {
    var j := lo;
    if p1 == p2 {
      while j < hi
        invariant lo <= j
        invariant forall j' :: lo <= j' < j && j' < hi ==> !DistGreater(p1, pts[j'], dist)
      {
        if DistGreater(p1, pts[j], dist) {
          return true;
        }
        j := j + 1;
      }
    } else {
      while j < hi
        invariant lo <= j
        invariant forall j' :: lo <= j' < j && j' < hi ==> !FarFromChord(p1, p2, pts[j'], dist)
      {
        if FarFromChord(p1, p2, pts[j], dist) {
          return true;
        }
        j := j + 1;
      }
    }
    return false;
  }

  /**
   * LIC 6 with the guard N_PTS == 0 added: with no points in a window the
   * condition is not met.
   */
  method Lic6(pts: seq<Point>, prm: Parameters) returns (met: bool)
    ensures met == Lic6Holds(pts, prm)
  {
    if |pts| < 3 || prm.nPts > |pts| || prm.dist < 0.0 {
      return false;
    }
    if prm.nPts == 0 {
      return false;
    }
    var n := prm.nPts;
    for i := 0 to |pts| - n + 1
      invariant forall i': nat, j: nat :: i' < i ==> !Lic6At(pts, i', j, n, prm.dist)
    {
      var p1, p2 := pts[i], pts[i + n - 1];
      var found := FarPointInWindow(pts, p1, p2, i + 1, i + n - 1, prm.dist);
      assert forall j: nat :: Lic6At(pts, i, j, n, prm.dist) <==>
        i + 1 <= j < i + n - 1 && FarFromWindowEnds(p1, p2, pts[j], prm.dist);
      if found {
        return true;
      }
    }
    return false;
  }

  /** s[k] under Python indexing: a negative k counts from the end, None is an IndexError. */
  function PyIndex(s: seq<Point>, k: int): (r: Option<Point>)
    ensures r.Some? <==> -|s| <= k < |s|
    ensures 0 <= k < |s| ==> r == Some(s[k])
  {
    if 0 <= k < |s| then Some(s[k]) else if -|s| <= k < 0 then Some(s[|s| + k]) else None
  }

  /**
   * LIC 6 as written: with N_PTS == 0 the window loop runs to
   * i == len(POINTS) and POINTS[i] raises IndexError (None here). In every
   * other case the result is the one Lic6 computes.
   */
  method Lic6AsWritten(pts: seq<Point>, prm: Parameters) returns (r: Option<bool>)
    ensures r.None? <==> Lic6Guard(pts, prm) && prm.nPts == 0
    ensures r.Some? ==> r.value == Lic6Holds(pts, prm)
  {
    if |pts| < 3 || prm.nPts > |pts| || prm.dist < 0.0 {
      return Some(false);
    }
    var n := prm.nPts;
    var i := 0;
    while i < |pts| - n + 1
      invariant 0 <= i <= |pts| - n + 1
      invariant n == 0 ==> i <= |pts|
      invariant forall i': nat, j: nat :: i' < i ==> !Lic6At(pts, i', j, n, prm.dist)
    {
      var p1, p2 := PyIndex(pts, i), PyIndex(pts, i + n - 1);
      if p1.None? || p2.None? {
        return None;
      }
      var found := FarPointInWindow(pts, p1.value, p2.value, i + 1, i + n - 1, prm.dist);
      assert forall j: nat :: Lic6At(pts, i, j, n, prm.dist) <==>
        i + 1 <= j < i + n - 1 && FarFromWindowEnds(p1.value, p2.value, pts[j], prm.dist);
      if found {
        return Some(true);
      }
      i := i + 1;
    }
    return Some(false);
  }

  /** With the default parameters (N_PTS = 0, DIST = 0) and three or more points, LIC 6 as written raises IndexError. */
  method Lic6AsWrittenWithDefaults(pts: seq<Point>) returns (r: Option<bool>)
    requires |pts| >= 3
    ensures r.None?
  {
    r := Lic6AsWritten(pts, DefaultParameters());
  }

  /**
   * FarFromChord is the source's test abs(ChordCross) / sqrt(chord
   * squared) > DIST, for any positive chord length and the DIST >= 0 the
   * guard guarantees.
   */
  lemma ChordDistanceComparison(p1: Point, p2: Point, p: Point, dist: real, chord: real)
    requires dist >= 0.0 && chord > 0.0 && Sq(chord) == DistSq(p1, p2)
    ensures FarFromChord(p1, p2, p, dist) <==> Abs(ChordCross(p1, p2, p)) / chord > dist
  {
    var x := Abs(ChordCross(p1, p2, p));
    DivisionComparison(x, chord, dist);
    MulMonotonic(0.0, dist, chord);
    assert Mul(0.0, chord) == 0.0;
    SquaresOrdered(x, Mul(dist, chord));
    SqOfAbs(ChordCross(p1, p2, p));
    SqOfProduct(dist, chord);
  }

  /** With N_PTS <= 2 no window has an interior point, so LIC 6 does not hold. */
  lemma Lic6NeedsThreeWindowPoints(pts: seq<Point>, prm: Parameters)
    requires prm.nPts <= 2
    ensures !Lic6Holds(pts, prm)
  {
  }

  // ---------------------------------------------------------------------
  // Relations between conditions

  /** The LIC 2 angle test and the LIC 9 angle test are the same test. */
  lemma AngleTestsAgree(p1: Point, p2: Point, p3: Point, eps: real, num: Numerics)
    ensures AngleOutside(p1, p2, p3, eps, num) <==> AngleFarFromPi(p1, p2, p3, eps, num)
  {
  }

  /** The first part of LIC 12 is LIC 7 with the same K_PTS and LENGTH1. */
  lemma Lic12ImpliesLic7(pts: seq<Point>, prm: Parameters)
    ensures Lic12Holds(pts, |pts|, prm) ==> Lic7Holds(pts, prm)
  {
  }

  /**
   * The first part of LIC 14 is LIC 10 once E_PTS and F_PTS are at least
   * 1, the check LIC 14 lacks: the window itself forces
   * E_PTS + F_PTS <= NUMPOINTS - 3.
   */
  lemma Lic14ImpliesLic10(pts: seq<Point>, prm: Parameters)
    requires prm.ePts >= 1 && prm.fPts >= 1
    ensures Lic14Holds(pts, prm) ==> Lic10Holds(pts, |pts|, prm)
  {
  }

  /**
   * LIC 3 skips zero areas: when every consecutive triple is collinear it
   * does not hold, whatever AREA1 is.
   */
  lemma Lic3IgnoresCollinearTriples(pts: seq<Point>, prm: Parameters)
    requires forall i :: 0 <= i && i + 2 < |pts| ==> Collinear(pts[i], pts[i + 1], pts[i + 2])
    ensures !Lic3Holds(pts, prm)
  {
    forall i: nat
      ensures !AreaAboveSkippingZeroAt(pts, i, prm.area1)
    {
      if i + 2 < |pts| {
        assert Collinear(pts[i], pts[i + 1], pts[i + 2]);
      }
    }
  }

  /**
   * LIC 10 has no zero-area skip: with a negative AREA1 it holds as soon
   * as its guard passes, collinear points included.
   */
  lemma Lic10HoldsForNegativeArea(pts: seq<Point>, prm: Parameters)
    requires Lic10Guard(|pts|, prm) && prm.area1 < 0.0
    ensures Lic10Holds(pts, |pts|, prm)
  {
    assert AreaAboveAt(pts, 0, prm.ePts, prm.fPts, prm.area1);
  }

  /** An area equal to AREA1 does not count: [(0,0), (2,0), (0,2)] with AREA1 = 2. */
  lemma Lic3AreaEqualToBound()
    ensures !Lic3Holds([Point(0.0, 0.0), Point(2.0, 0.0), Point(0.0, 2.0)], DefaultParameters().(area1 := 2.0))
  {
    var pts := [Point(0.0, 0.0), Point(2.0, 0.0), Point(0.0, 2.0)];
    assert !AreaAboveSkippingZero(Point(0.0, 0.0), Point(2.0, 0.0), Point(0.0, 2.0), 2.0);
    forall i: nat
      ensures !AreaAboveSkippingZeroAt(pts, i, 2.0)
    {
      if i + 2 < |pts| {
        assert i == 0;
      }
    }
  }

  /**
   * [(0,0), (1,0), (10,0), (1,1), (0,10)] with E_PTS = F_PTS = 1: the
   * triple P0, P2, P4 has area 50, so LIC 10 holds for AREA1 = 40 and
   * not for AREA1 = 50.
   */
  lemma Lic10Example()
    ensures
      var pts := [Point(0.0, 0.0), Point(1.0, 0.0), Point(10.0, 0.0), Point(1.0, 1.0), Point(0.0, 10.0)];
      var prm := DefaultParameters().(ePts := 1, fPts := 1);
      Lic10Holds(pts, 5, prm.(area1 := 40.0)) && !Lic10Holds(pts, 5, prm.(area1 := 50.0))
  {
    var pts := [Point(0.0, 0.0), Point(1.0, 0.0), Point(10.0, 0.0), Point(1.0, 1.0), Point(0.0, 10.0)];
    assert TriangleArea(pts[0], pts[2], pts[4]) == 50.0;
    assert AreaAboveAt(pts, 0, 1, 1, 40.0);
  }

  // ---------------------------------------------------------------------
  // All fifteen conditions by index

  /** Condition k of the Conditions Met Vector, for 0 <= k < 15. */
  ghost predicate LicHolds(k: nat, pts: seq<Point>, numPoints: int, prm: Parameters, num: Numerics)
    requires k < 15
  {
    match k
    case 0 => Lic0Holds(pts, prm)
    case 1 => Lic1Holds(pts, prm, num)
    case 2 => Lic2Holds(pts, prm, num)
    case 3 => Lic3Holds(pts, prm)
    case 4 => Lic4Holds(pts, prm)
    case 5 => Lic5Holds(pts)
    case 6 => Lic6Holds(pts, prm)
    case 7 => Lic7Holds(pts, prm)
    case 8 => Lic8Holds(pts, prm, num)
    case 9 => Lic9Holds(pts, prm, num)
    case 10 => Lic10Holds(pts, numPoints, prm)
    case 11 => Lic11Holds(pts, numPoints, prm)
    case 12 => Lic12Holds(pts, numPoints, prm)
    case 13 => Lic13Holds(pts, prm, num)
    case 14 => Lic14Holds(pts, prm)
  }

  /** The k-th entry of the list of check methods calculate_CMV walks through. */
  method EvaluateLic(k: nat, pts: seq<Point>, numPoints: int, prm: Parameters, num: Numerics) returns (met: bool)
    requires k < 15 && numPoints == |pts|
    ensures met == LicHolds(k, pts, numPoints, prm, num)
  {
    match k
    case 0 => met := Lic0(pts, prm);
    case 1 => met := Lic1(pts, prm, num);
    case 2 => met := Lic2(pts, prm, num);
    case 3 => met := Lic3(pts, prm);
    case 4 => met := Lic4(pts, prm);
    case 5 => met := Lic5(pts);
    case 6 => met := Lic6(pts, prm);
    case 7 => met := Lic7(pts, prm);
    case 8 => met := Lic8(pts, prm, num);
    case 9 => met := Lic9(pts, prm, num);
    case 10 => met := Lic10(pts, numPoints, prm);
    case 11 => met := Lic11(pts, numPoints, prm);
    case 12 => met := Lic12(pts, numPoints, prm);
    case 13 => met := Lic13(pts, prm, num);
    case 14 => met := Lic14(pts, prm);
  }
}
