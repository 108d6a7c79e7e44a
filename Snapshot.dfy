/**
 * The earlier snapshot under code/: a Decide class that has only the
 * validated NUMPOINTS and POINTS properties (code/decide.py), and a
 * standalone LIC 0 check over a list of points (code/LIC_check.py).
 *
 * The setters check in the same order as those of src/decide/decide.py;
 * their contracts prove them equal to the pure functions of module
 * Engine that specify those.
 */
module Snapshot {
  import opened Wrappers
  import opened Geometry
  import opened Lic
  import opened Engine

  class Decide {
    var numPoints: Option<nat>
    var points: seq<Point>
    var params: Parameters
    const cmv: array<bool>
    const lcm: array2<Connector>
    const pum: array2<bool>
    const puv: array<bool>
    const fuv: array<bool>
    var launch: Launch

    ghost function Configuration(): Config
      reads this
    {
      Config(numPoints, points)
    }

    ghost predicate Valid()
      reads this
    {
      cmv.Length == Size && puv.Length == Size && fuv.Length == Size
      && lcm.Length0 == Size && lcm.Length1 == Size && pum.Length0 == Size && pum.Length1 == Size
      && ConfigOk(Configuration())
    }

    /** Decide(): the same initial state as the later class, without a LIC evaluator. */
    constructor ()
      ensures Valid()
      ensures Configuration() == Config(None, []) && params == DefaultParameters() && launch == No
      ensures forall i :: 0 <= i < Size ==> !cmv[i] && !puv[i] && !fuv[i]
      ensures forall i, j :: 0 <= i < Size && 0 <= j < Size ==> lcm[i, j] == NotUsed && pum[i, j]
      ensures fresh(cmv) && fresh(lcm) && fresh(pum) && fresh(puv) && fresh(fuv)
    {
      numPoints := None;
      points := [];
      cmv := new bool[Size](_ => false);
      lcm := new Connector[Size, Size]((_, _) => NotUsed);
      pum := new bool[Size, Size]((_, _) => true);
      puv := new bool[Size](_ => false);
      fuv := new bool[Size](_ => false);
      launch := No;
      params := DefaultParameters();
    }

    /** The NUMPOINTS setter: write-once, an int in [2, 100]. */
    method SetNumPoints(value: Value) returns (err: Option<ConfigError>)
      requires Valid()
      modifies this`numPoints
      ensures Valid()
      ensures Configuration() == Apply(old(Configuration()), AssignNumPoints(value))
      ensures err == ErrorOf(old(Configuration()), AssignNumPoints(value))
    {
      if numPoints.Some? {
        return Some(NumPointsImmutable);
      }
      if !value.IntValue? || !(2 <= value.i <= 100) {
        return Some(NumPointsOutOfRange);
      }
      numPoints := Some(value.i);
      return None;
    }

    /** The POINTS setter: validation, storage, then NUMPOINTS := len(POINTS) when unset. */
    method SetPoints(value: RawPoints) returns (err: Option<ConfigError>)
      requires Valid()
      modifies this`numPoints, this`points
      ensures Valid()
      ensures Configuration() == Apply(old(Configuration()), AssignPoints(value))
      ensures err == ErrorOf(old(Configuration()), AssignPoints(value))
    {
      if !WellShaped(value) {
        return Some(PointsNotPairs);
      }
      if !AllNumeric(value.items) {
        return Some(PointsNotNumeric);
      }
      if numPoints.Some? && |value.items| != numPoints.value {
        return Some(PointsLengthMismatch);
      }
      if !(2 <= |value.items| <= 100) {
        return Some(PointsCountOutOfRange);
      }
      ghost var before := Configuration();
      // NUMPOINTS is assigned first so that Valid() holds in between;
      // the final state is the one the source reaches.
      if numPoints.None? {
        var e := SetNumPoints(IntValue(|value.items|));
      }
      points := ToPoints(value.items);
      ApplyOutcome(before, AssignPoints(value));
      return None;
    }
  }

  /**
   * lic_0_check: two consecutive points more than length1 apart. It is
   * LIC 0 of the later code with LENGTH1 = length1.
   */
  method Lic0Check(dataPoints: seq<Point>, length1: real) returns (met: bool)
    ensures met == Lic0Holds(dataPoints, DefaultParameters().(length1 := length1))
    ensures |dataPoints| < 2 ==> !met
  {
    if |dataPoints| < 2 {
      return false;
    }
    var index := 0;
    while index < |dataPoints| - 1
      invariant 0 <= index <= |dataPoints| - 1
      invariant forall i: nat :: i < index ==> !LengthExceededAt(dataPoints, i, 0, length1)
    {
      var p1 := dataPoints[index];
      var p2 := dataPoints[index + 1];
      // sqrt(d) > length1, with d the squared distance
      var d := Sq(p2.x - p1.x) + Sq(p2.y - p1.y);
      if length1 < 0.0 || d > Sq(length1) {
        assert LengthExceededAt(dataPoints, index, 0, length1);
        return true;
      }
      index := index + 1;
    }
    return false;
  }

  /** Points (0, 0) and (3, 4) are exactly 5 apart, so a LENGTH1 of 5 is not exceeded. */
  lemma DistanceEqualToLengthIsNotExceeded()
    ensures !Lic0Holds([Point(0.0, 0.0), Point(3.0, 4.0)], DefaultParameters().(length1 := 5.0))
  {
    var pts := [Point(0.0, 0.0), Point(3.0, 4.0)];
    assert DistSq(pts[0], pts[1]) == 25.0;
    forall i: nat
      ensures !LengthExceededAt(pts, i, 0, 5.0)
    {
      if i + 1 < |pts| {
        assert i == 0;
      }
    }
  }

  /** Points (0, 0) and (4, 5) are sqrt(41) apart, more than a LENGTH1 of 5. */
  lemma DistanceAboveLengthIsExceeded()
    ensures Lic0Holds([Point(0.0, 0.0), Point(4.0, 5.0)], DefaultParameters().(length1 := 5.0))
  {
    var pts := [Point(0.0, 0.0), Point(4.0, 5.0)];
    assert DistSq(pts[0], pts[1]) == 41.0;
    assert LengthExceededAt(pts, 0, 0, 5.0);
  }
}
