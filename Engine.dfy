/**
 * The decision engine of src/decide/decide.py: the validated NUMPOINTS
 * and POINTS properties, and the CMV -> PUM -> FUV -> LAUNCH pipeline.
 *
 * The setters are specified by the pure functions NumPointsAssignment
 * and PointsAssignment, which return the value stored or the error
 * raised. Apply and Run replay assignments on a Config, and the lemmas
 * about them state what holds after any sequence of assignments. The
 * class Decide keeps the vectors and matrices as arrays that the
 * pipeline methods update element by element.
 */
module Engine {
  import opened Wrappers
  import opened Geometry
  import opened Lic

  // ---------------------------------------------------------------------
  // Values handed to the setters

  /** A value assigned to NUMPOINTS: a Python int, or anything else. */
  datatype Value = IntValue(i: int) | NonInt

  /** A coordinate: an int or float, or anything else. */
  datatype Number = Numeric(value: real) | NonNumeric

  /** An element of the list assigned to POINTS: a 2-tuple, or anything else. */
  datatype RawPoint = Pair(x: Number, y: Number) | NotPair

  /** A value assigned to POINTS: a list, or anything else. */
  datatype RawPoints = PointList(items: seq<RawPoint>) | NotList

  /** The exception a setter raises; messages are not modelled. */
  datatype ConfigError =
    | NumPointsImmutable      // AttributeError: NUMPOINTS already set
    | NumPointsOutOfRange     // ValueError: not an int in [2, 100]
    | PointsNotPairs          // ValueError: not a list of 2-tuples
    | PointsNotNumeric        // ValueError: a coordinate is not int or float
    | PointsLengthMismatch    // ValueError: length differs from NUMPOINTS
    | PointsCountOutOfRange   // ValueError: length not in [2, 100]

  /**
   * The NUMPOINTS setter: the value to store, or the error. The
   * immutability check comes first, so a second assignment fails with
   * NumPointsImmutable whatever the value.
   */
  function NumPointsAssignment(current: Option<nat>, value: Value): (r: Result<nat, ConfigError>)
    ensures current.Some? ==> r == Failure(NumPointsImmutable)
    ensures current.None? && r.Failure? ==> r.error == NumPointsOutOfRange
    ensures r.Success? <==> current.None? && value.IntValue? && 2 <= value.i <= 100
    ensures r.Success? ==> value == IntValue(r.value)
  {
    if current.Some? then
      Failure(NumPointsImmutable)
    else if !value.IntValue? || !(2 <= value.i <= 100) then
      Failure(NumPointsOutOfRange)
    else
      Success(value.i)
  }

  /** A list whose every element is a 2-tuple. */
  predicate WellShaped(value: RawPoints)
  {
    value.PointList? && forall k :: 0 <= k < |value.items| ==> value.items[k].Pair?
  }

  /** Every coordinate of every 2-tuple is an int or a float. */
  predicate AllNumeric(items: seq<RawPoint>)
  {
    forall k :: 0 <= k < |items| ==> items[k].Pair? && items[k].x.Numeric? && items[k].y.Numeric?
  }

  /** The coordinates of the submitted 2-tuples, as points. */
  function ToPoints(items: seq<RawPoint>): seq<Point>
    requires AllNumeric(items)
  {
    seq(|items|, k requires 0 <= k < |items| => Point(items[k].x.value, items[k].y.value))
  }

  /**
   * The validation of the POINTS setter: the points to store, or the
   * first check that fails. Shape, then coordinate types, then the
   * match with a set NUMPOINTS, then the range [2, 100].
   */
  function PointsAssignment(current: Option<nat>, value: RawPoints): (r: Result<seq<Point>, ConfigError>)
    ensures r == Failure(PointsNotPairs) <==> !WellShaped(value)
    ensures r == Failure(PointsNotNumeric) <==> WellShaped(value) && !AllNumeric(value.items)
    ensures r == Failure(PointsLengthMismatch) <==>
      WellShaped(value) && AllNumeric(value.items) && current.Some? && |value.items| != current.value
    ensures r == Failure(PointsCountOutOfRange) <==>
      WellShaped(value) && AllNumeric(value.items) && (current.None? || |value.items| == current.value)
      && !(2 <= |value.items| <= 100)
    ensures r.Success? <==>
      WellShaped(value) && AllNumeric(value.items) && (current.None? || |value.items| == current.value)
      && 2 <= |value.items| <= 100
    ensures r.Success? ==>
      WellShaped(value) && AllNumeric(value.items) && r.value == ToPoints(value.items)
      && 2 <= |r.value| <= 100 && (current.Some? ==> |r.value| == current.value)
  {
    if !WellShaped(value) then
      Failure(PointsNotPairs)
    else if !AllNumeric(value.items) then
      Failure(PointsNotNumeric)
    else if current.Some? && |value.items| != current.value then
      Failure(PointsLengthMismatch)
    else if !(2 <= |value.items| <= 100) then
      Failure(PointsCountOutOfRange)
    else
      Success(ToPoints(value.items))
  }

  // ---------------------------------------------------------------------
  // Configuration as a value

  datatype Config = Config(numPoints: Option<nat>, points: seq<Point>)

  /**
   * What the setters maintain: NUMPOINTS, once set, lies in [2, 100],
   * and stored points always number exactly NUMPOINTS.
   */
  ghost predicate ConfigOk(c: Config)
  {
    (c.numPoints.Some? ==> 2 <= c.numPoints.value <= 100)
    && (c.points != [] ==> c.numPoints == Some(|c.points|))
  }

  datatype Assignment = AssignNumPoints(numPoints: Value) | AssignPoints(points: RawPoints)

  /**
   * One assignment. A failing one leaves the configuration as it was. A
   * successful POINTS assignment stores the points and then assigns
   * NUMPOINTS := len(POINTS) when NUMPOINTS is unset.
   */
  function Apply(c: Config, a: Assignment): Config
    decreases a.AssignPoints?
  {
    match a
    case AssignNumPoints(v) =>
      (match NumPointsAssignment(c.numPoints, v)
       case Success(n) => c.(numPoints := Some(n))
       case Failure(_) => c)
    case AssignPoints(v) =>
      (match PointsAssignment(c.numPoints, v)
       case Success(pts) =>
         var stored := c.(points := pts);
         if c.numPoints.None? then Apply(stored, AssignNumPoints(IntValue(|pts|))) else stored
       case Failure(_) => c)
  }

  /** The error an assignment raises, if any. */
  function ErrorOf(c: Config, a: Assignment): Option<ConfigError>
  {
    match a
    case AssignNumPoints(v) =>
      (match NumPointsAssignment(c.numPoints, v) case Success(_) => None case Failure(e) => Some(e))
    case AssignPoints(v) =>
      (match PointsAssignment(c.numPoints, v) case Success(_) => None case Failure(e) => Some(e))
  }

  /** The assignments one after the other. */
  function Run(c: Config, assignments: seq<Assignment>): Config
    decreases |assignments|
  {
    if assignments == [] then c else Run(Apply(c, assignments[0]), assignments[1..])
  }

  /** A failed assignment changes nothing; a successful one of POINTS leaves NUMPOINTS == len(POINTS). */
  lemma ApplyOutcome(c: Config, a: Assignment)
    ensures ErrorOf(c, a).Some? ==> Apply(c, a) == c
    ensures a.AssignPoints? && ErrorOf(c, a).None? ==>
      Apply(c, a).points == ToPoints(a.points.items) && Apply(c, a).numPoints == Some(|Apply(c, a).points|)
  {
    if a.AssignPoints? && ErrorOf(c, a).None? {
      var pts := PointsAssignment(c.numPoints, a.points).value;
      if c.numPoints.None? {
        assert NumPointsAssignment(None, IntValue(|pts|)) == Success(|pts|);
      }
    }
  }

  /** Every assignment preserves ConfigOk. */
  lemma ApplyPreservesConfigOk(c: Config, a: Assignment)
    requires ConfigOk(c)
    ensures ConfigOk(Apply(c, a))
  {
    ApplyOutcome(c, a);
  }

  /** Once NUMPOINTS is set, no assignment changes it. */
  lemma ApplyKeepsNumPoints(c: Config, a: Assignment)
    requires c.numPoints.Some?
    ensures Apply(c, a).numPoints == c.numPoints
  {
  }

  lemma {:induction false} RunPreservesConfigOk(c: Config, assignments: seq<Assignment>)
    requires ConfigOk(c)
    ensures ConfigOk(Run(c, assignments))
    decreases |assignments|
  {
    if assignments != [] {
      ApplyPreservesConfigOk(c, assignments[0]);
      RunPreservesConfigOk(Apply(c, assignments[0]), assignments[1..]);
    }
  }

  /** NUMPOINTS is write-once: after it is set, every later assignment leaves it as it is. */
  lemma {:induction false} RunKeepsNumPoints(c: Config, assignments: seq<Assignment>)
    requires c.numPoints.Some?
    ensures Run(c, assignments).numPoints == c.numPoints
    decreases |assignments|
  {
    if assignments != [] {
      ApplyKeepsNumPoints(c, assignments[0]);
      RunKeepsNumPoints(Apply(c, assignments[0]), assignments[1..]);
    }
  }

  /** NUMPOINTS = 5 and then NUMPOINTS = 10: the second raises the immutability error and 5 stays. */
  lemma NumPointsAssignedTwice()
    ensures var c := Apply(Config(None, []), AssignNumPoints(IntValue(5)));
      c.numPoints == Some(5)
      && ErrorOf(c, AssignNumPoints(IntValue(10))) == Some(NumPointsImmutable)
      && Apply(c, AssignNumPoints(IntValue(10))) == c
  {
  }

  // ---------------------------------------------------------------------
  // The pipeline

  /** An entry of the Logical Connector Matrix; any other string is Unrecognised. */
  datatype Connector = Andd | Orr | NotUsed | Unrecognised(tag: string)

  datatype Launch = Yes | No

  /** The exceptions decide raises as written. */
  datatype DecideError = IndexError | AttributeError

  /** calculate_PUM for one entry; an unrecognised connector leaves the previous value. */
  function PumEntry(c: Connector, cmvI: bool, cmvJ: bool, previous: bool): bool
  {
    match c
    case Andd => cmvI && cmvJ
    case Orr => cmvI || cmvJ
    case NotUsed => true
    case Unrecognised(_) => previous
  }

  /** A recognised connector gives the same entry at (i, j) and at (j, i). */
  lemma PumEntrySymmetric(c: Connector, a: bool, b: bool, previous: bool, previous': bool)
    requires !c.Unrecognised? || previous == previous'
    ensures PumEntry(c, a, b, previous) == PumEntry(c, b, a, previous')
  {
  }

  const Size: nat := 15

  class Decide {
    var numPoints: Option<nat>
    var points: seq<Point>
    var params: Parameters
    const numerics: Numerics
    const cmv: array<bool>
    const lcm: array2<Connector>
    const pum: array2<bool>
    const puv: array<bool>
    const fuv: array<bool>
    var launch: Launch
    /** An attribute FUV set on the instance from outside; the class defines none. */
    var fuvAttribute: Option<seq<bool>>

    ghost function Configuration(): Config
      reads this
    {
      Config(numPoints, points)
    }

    ghost predicate Valid()
      reads this
    {
      cmv.Length == Size && puv.Length == Size && fuv.Length == Size
      && lcm.Length0 == Size && lcm.Length1 == Size && pum.Length0 == Size && pum.Length1 == Size
      && cmv != puv && cmv != fuv && puv != fuv
      && ConfigOk(Configuration())
    }

    /** Decide(): NUMPOINTS unset, no points, parameters 0, CMV false, LCM NOTUSED, PUM true, PUV and FUV false. */
    constructor (numerics: Numerics)
      ensures Valid()
      ensures Configuration() == Config(None, []) && params == DefaultParameters() && launch == No
      ensures this.numerics == numerics && fuvAttribute == None
      ensures forall i :: 0 <= i < Size ==> !cmv[i] && !puv[i] && !fuv[i]
      ensures forall i, j :: 0 <= i < Size && 0 <= j < Size ==> lcm[i, j] == NotUsed && pum[i, j]
      ensures fresh(cmv) && fresh(lcm) && fresh(pum) && fresh(puv) && fresh(fuv)
    {
      numPoints := None;
      points := [];
      cmv := new bool[Size](_ => false);
      lcm := new Connector[Size, Size]((_, _) => NotUsed);
      pum := new bool[Size, Size]((_, _) => true);
      puv := new bool[Size](_ => false);
      fuv := new bool[Size](_ => false);
      launch := No;
      params := DefaultParameters();
      fuvAttribute := None;
      this.numerics := numerics;
    }

    /** The NUMPOINTS setter: err is the exception raised, None on success. */
    method SetNumPoints(value: Value) returns (err: Option<ConfigError>)
      requires Valid()
      modifies this`numPoints
      ensures Valid()
      ensures Configuration() == Apply(old(Configuration()), AssignNumPoints(value))
      ensures err == ErrorOf(old(Configuration()), AssignNumPoints(value))
    {
      if numPoints.Some? {
        return Some(NumPointsImmutable);
      }
      if !value.IntValue? || !(2 <= value.i <= 100) {
        return Some(NumPointsOutOfRange);
      }
      numPoints := Some(value.i);
      return None;
    }

    /** The POINTS setter: err is the exception raised, None on success. */
    method SetPoints(value: RawPoints) returns (err: Option<ConfigError>)
      requires Valid()
      modifies this`numPoints, this`points
      ensures Valid()
      ensures Configuration() == Apply(old(Configuration()), AssignPoints(value))
      ensures err == ErrorOf(old(Configuration()), AssignPoints(value))
    {
      if !WellShaped(value) {
        return Some(PointsNotPairs);
      }
      if !AllNumeric(value.items) {
        return Some(PointsNotNumeric);
      }
      if numPoints.Some? && |value.items| != numPoints.value {
        return Some(PointsLengthMismatch);
      }
      if !(2 <= |value.items| <= 100) {
        return Some(PointsCountOutOfRange);
      }
      ghost var before := Configuration();
      // The source stores POINTS and then assigns NUMPOINTS := len(POINTS);
      // both steps succeed here, and the order keeps Valid() in between.
      if numPoints.None? {
        var e := SetNumPoints(IntValue(|value.items|));
      }
      points := ToPoints(value.items);
      ApplyOutcome(before, AssignPoints(value));
      return None;
    }

    /** calculate_CMV: CMV[k] is condition k on the current points and parameters. */
    method CalculateCMV()
      requires Valid() && numPoints == Some(|points|)
      modifies cmv
      ensures forall k :: 0 <= k < Size ==> cmv[k] == LicHolds(k, points, |points|, params, numerics)
    {
      for index := 0 to Size
        invariant forall k :: 0 <= k < index ==> cmv[k] == LicHolds(k, points, |points|, params, numerics)
      {
        var conditionMet := EvaluateLic(index, points, numPoints.value, params, numerics);
        cmv[index] := conditionMet;
      }
    }

    /**
     * calculate_PUM: each entry combines CMV[i] and CMV[j] as LCM[i][j]
     * says. With a symmetric LCM, and previous entries symmetric where
     * the connector is unrecognised, the PUM is symmetric.
     */
    method CalculatePUM()
      requires Valid()
      modifies pum
      ensures forall i, j :: 0 <= i < Size && 0 <= j < Size ==>
        pum[i, j] == PumEntry(lcm[i, j], cmv[i], cmv[j], old(pum[i, j]))
      ensures (forall i, j :: 0 <= i < Size && 0 <= j < Size ==>
                 lcm[i, j] == lcm[j, i] && (lcm[i, j].Unrecognised? ==> old(pum[i, j]) == old(pum[j, i])))
              ==> forall i, j :: 0 <= i < Size && 0 <= j < Size ==> pum[i, j] == pum[j, i]
    {
      for i := 0 to Size
        invariant forall i', j :: 0 <= i' < i && 0 <= j < Size ==>
          pum[i', j] == PumEntry(lcm[i', j], cmv[i'], cmv[j], old(pum[i', j]))
        invariant forall i', j :: i <= i' < Size && 0 <= j < Size ==> pum[i', j] == old(pum[i', j])
      {
        for j := 0 to Size
          invariant forall i', j' :: 0 <= i' < i && 0 <= j' < Size ==>
            pum[i', j'] == PumEntry(lcm[i', j'], cmv[i'], cmv[j'], old(pum[i', j']))
          invariant forall j' :: 0 <= j' < j ==> pum[i, j'] == PumEntry(lcm[i, j'], cmv[i], cmv[j'], old(pum[i, j']))
          invariant forall i', j' :: (i < i' < Size && 0 <= j' < Size) || (i' == i && j <= j' < Size) ==>
            pum[i', j'] == old(pum[i', j'])
        {
          if lcm[i, j] == Andd {
            pum[i, j] := cmv[i] && cmv[j];
          } else if lcm[i, j] == Orr {
            pum[i, j] := cmv[i] || cmv[j];
          } else if lcm[i, j] == NotUsed {
            pum[i, j] := true;
          }
        }
      }
      forall i, j | 0 <= i < Size && 0 <= j < Size && lcm[i, j] == lcm[j, i]
          && (lcm[i, j].Unrecognised? ==> old(pum[i, j]) == old(pum[j, i]))
        ensures pum[i, j] == pum[j, i]
      {
        PumEntrySymmetric(lcm[i, j], cmv[i], cmv[j], old(pum[i, j]), old(pum[j, i]));
      }
    }

    /** calculate_FUV: FUV[i] is true when PUV[i] is false, and otherwise the AND of PUM row i. */
    method CalculateFUV()
      requires Valid()
      modifies fuv
      ensures forall i :: 0 <= i < Size ==> (fuv[i] <==> !puv[i] || forall j :: 0 <= j < Size ==> pum[i, j])
    {
      for i := 0 to Size
        invariant forall i' :: 0 <= i' < i ==> (fuv[i'] <==> !puv[i'] || forall j :: 0 <= j < Size ==> pum[i', j])
      {
        if !puv[i] {
          fuv[i] := true;
        } else {
          var all := true;
          for j := 0 to Size
            invariant all <==> forall j' :: 0 <= j' < j ==> pum[i, j']
          {
            all := all && pum[i, j];
          }
          fuv[i] := all;
        }
      }
    }

    /**
     * decide: CMV, PUM and FUV in order, then LAUNCH is YES exactly when
     * every FUV entry is true. With no PUV entry set the launch is YES.
     */
    method Decide() returns (result: Launch)
      requires Valid() && numPoints == Some(|points|)
      modifies cmv, pum, fuv, this`launch
      ensures Valid()
      ensures forall k :: 0 <= k < Size ==> cmv[k] == LicHolds(k, points, |points|, params, numerics)
      ensures forall i, j :: 0 <= i < Size && 0 <= j < Size ==>
        pum[i, j] == PumEntry(lcm[i, j], cmv[i], cmv[j], old(pum[i, j]))
      ensures forall i :: 0 <= i < Size ==> (fuv[i] <==> !puv[i] || forall j :: 0 <= j < Size ==> pum[i, j])
      ensures result == launch && (result == Yes <==> forall i :: 0 <= i < Size ==> fuv[i])
      ensures (forall i :: 0 <= i < Size ==> !puv[i]) ==> result == Yes
    {
      CalculateCMV();
      CalculatePUM();
      CalculateFUV();
      var all := true;
      for i := 0 to Size
        invariant all <==> forall i' :: 0 <= i' < i ==> fuv[i']
      {
        all := all && fuv[i];
      }
      launch := if all then Yes else No;
      return launch;
    }

    /** LIC 6 as written raises IndexError on the current points and parameters. */
    ghost predicate Lic6Raises()
      reads this
    {
      Lic6Guard(points, params) && params.nPts == 0
    }

    /**
     * calculate_CMV as written: LIC 6 is evaluated as the source does, so
     * when it raises IndexError the loop stops with CMV[0..5] written and
     * the rest of the CMV as it was.
     */
    method CalculateCMVAsWritten() returns (raised: bool)
      requires Valid() && numPoints == Some(|points|)
      modifies cmv
      ensures raised <==> Lic6Raises()
      ensures forall k :: 0 <= k < Size && (k < 6 || !raised) ==>
        cmv[k] == LicHolds(k, points, |points|, params, numerics)
      ensures raised ==> forall k :: 6 <= k < Size ==> cmv[k] == old(cmv[k])
    {
      for index := 0 to Size
        invariant forall k :: 0 <= k < index ==> cmv[k] == LicHolds(k, points, |points|, params, numerics)
        invariant forall k :: index <= k < Size ==> cmv[k] == old(cmv[k])
        invariant index > 6 ==> !Lic6Raises()
      {
        var conditionMet: bool;
        if index == 6 {
          var outcome := Lic6AsWritten(points, params);
          if outcome.None? {
            return true;
          }
          conditionMet := outcome.value;
        } else {
          conditionMet := EvaluateLic(index, points, numPoints.value, params, numerics);
        }
        cmv[index] := conditionMet;
      }
      return false;
    }

    /**
     * decide as written: calculate_CMV as written, which may raise
     * IndexError in LIC 6; then PUM and FUV; then all(self.FUV), an
     * attribute the class does not define, so it raises AttributeError
     * unless FUV was set on the instance from outside. LAUNCH is assigned
     * only when nothing is raised.
     */
    method DecideAsWritten() returns (result: Result<Launch, DecideError>)
      requires Valid() && numPoints == Some(|points|)
      modifies cmv, pum, fuv, this`launch
      ensures Valid()
      ensures result == Failure(IndexError) <==> Lic6Raises()
      ensures result == Failure(AttributeError) <==> !Lic6Raises() && fuvAttribute.None?
      ensures result.Failure? ==> launch == old(launch)
      ensures forall k :: 0 <= k < Size && (k < 6 || !Lic6Raises()) ==>
        cmv[k] == LicHolds(k, points, |points|, params, numerics)
      ensures Lic6Raises() ==>
        (forall k :: 6 <= k < Size ==> cmv[k] == old(cmv[k]))
        && (forall i, j :: 0 <= i < Size && 0 <= j < Size ==> pum[i, j] == old(pum[i, j]))
        && (forall i :: 0 <= i < Size ==> fuv[i] == old(fuv[i]))
      ensures !Lic6Raises() ==>
        (forall i, j :: 0 <= i < Size && 0 <= j < Size ==>
           pum[i, j] == PumEntry(lcm[i, j], cmv[i], cmv[j], old(pum[i, j])))
        && (forall i :: 0 <= i < Size ==> (fuv[i] <==> !puv[i] || forall j :: 0 <= j < Size ==> pum[i, j]))
      ensures result.Success? ==>
        result == Success(launch)
        && (launch == Yes <==> forall i :: 0 <= i < |fuvAttribute.value| ==> fuvAttribute.value[i])
    {
      var raised := CalculateCMVAsWritten();
      if raised {
        return Failure(IndexError);
      }
      CalculatePUM();
      CalculateFUV();
      if fuvAttribute.None? {
        return Failure(AttributeError);
      }
      var attribute := fuvAttribute.value;
      var all := true;
      for i := 0 to |attribute|
        invariant all <==> forall i' :: 0 <= i' < i ==> attribute[i']
      {
        all := all && attribute[i];
      }
      launch := if all then Yes else No;
      return Success(launch);
    }
  }

  /** On a new instance given two points, LIC 6 stays behind its guard and decide as written raises AttributeError. */
  method DecideAsWrittenOnNewInstance(numerics: Numerics) returns (result: Result<Launch, DecideError>)
    ensures result == Failure(AttributeError)
  {
    var d := new Decide(numerics);
    var err := d.SetPoints(PointList([Pair(Numeric(0.0), Numeric(0.0)), Pair(Numeric(1.0), Numeric(1.0))]));
    result := d.DecideAsWritten();
  }

  /** On a new instance given three points, the default N_PTS = 0 makes decide as written raise IndexError. */
  method DecideAsWrittenWithThreePoints(numerics: Numerics) returns (result: Result<Launch, DecideError>)
    ensures result == Failure(IndexError)
  {
    var d := new Decide(numerics);
    var err := d.SetPoints(PointList([
      Pair(Numeric(0.0), Numeric(0.0)), Pair(Numeric(1.0), Numeric(1.0)), Pair(Numeric(2.0), Numeric(0.0))]));
    result := d.DecideAsWritten();
  }
}
