# DECIDE launch interceptor, modelled in Dafny

DECIDE is part of a hypothetical anti-ballistic-missile system. It
reads up to 100 planar radar points and 19 numeric parameters. From
these it computes the 15 Launch Interceptor Conditions (LICs) into the
Conditions Met Vector (CMV). The CMV is combined with the Logical
Connector Matrix (LCM) into the Preliminary Unlocking Matrix (PUM). The
PUM is then filtered through the Preliminary Unlocking Vector (PUV)
into the Final Unlocking Vector (FUV). The answer is LAUNCH = YES
exactly when every FUV entry is true.

The project has five modules, one per source file or group:

- `Wrappers`: `Option` and `Result`.
- `Geometry` (src/decide/helpers.py): distances, triangle area, the
  angle at a vertex, and the circumcenter guard. Distances are compared
  on their squares: `DistGreater`, `DistLess` and `DistAtMost` are
  proved equal to the source's `sqrt(...) > bound` tests.
- `Lic` (src/decide/lic.py):
  - one method per LIC. It scans the point list left to right, as
    the source does, and is proved equal to a predicate `LicNHolds`
    (a guard plus an existential over index windows).
  - `EvaluateLic`, which dispatches on the condition number.
- `Engine` (src/decide/decide.py):
  - the validated NUMPOINTS and POINTS setters.
  - the `Decide` class, whose CMV, LCM, PUM, PUV and FUV are arrays
    updated in place by `CalculateCMV`, `CalculatePUM`, `CalculateFUV`
    and `Decide`.
  - The setters are specified by the pure functions
    `NumPointsAssignment` and `PointsAssignment`.
  - `Apply` and `Run` replay assignments on a `Config` value. The lemmas
    about them show that NUMPOINTS is write-once and that the stored
    points always number NUMPOINTS.
- `Snapshot` (code/decide.py, code/LIC_check.py): the earlier class with
  only the two setters, proved against the same functions, and the
  standalone `lic_0_check`.

Coordinates and real parameters are `real`. Counts (Q_PTS, QUADS, N_PTS,
K_PTS, A_PTS … G_PTS) are `nat`. Some numeric results are not defined
in the model and are supplied through a `Lic.Numerics` value:

- the arc cosine inside `calculate_angle`
- the sympy solution inside `calculate_circumcenter`
- the Heron circumradius of LIC 8

The guards around these values (`None` for a coincident vertex,
`None` for a degenerate triangle, skipping a zero-area triangle) are
modelled exactly.

## Model

| member | source | states |
|---|---|---|
| Geometry.Abs | src/decide/helpers.py:16-18 | fabs: the result is non-negative and is r or -r |
| Geometry.DistSq | src/decide/helpers.py:5-6 | squared Euclidean distance: non-negative, and positive exactly when the points differ |
| Geometry.DistSqSymmetric | src/decide/helpers.py:5-6 | distance(p, q) == distance(q, p) |
| Geometry.DistanceComparisons | src/decide/helpers.py:5-6 | for d = sqrt(DistSq), DistGreater/DistLess/DistAtMost hold exactly when d > / < / <= bound |
| Geometry.ShoelaceIsCross | src/decide/helpers.py:16-18 | the shoelace sum x1(y2 − y3) + x2(y3 − y1) + x3(y1 − y2) equals the cross product of p1→p2 and p1→p3 |
| Geometry.TriangleArea | src/decide/helpers.py:9-19 | shoelace area: non-negative, twice it is the absolute cross product, zero exactly when the vertices are collinear |
| Geometry.CoincidentVerticesHaveNoArea | src/decide/helpers.py:9-19 | a triangle with two equal vertices has area 0 |
| Geometry.TriangleAreaPermutation | src/decide/helpers.py:9-19 | the area does not depend on the order of the vertices |
| Geometry.CalculateAngle | src/decide/helpers.py:61-77 | None exactly when p1 or p3 coincides with the vertex p2; otherwise the arc-cosine value |
| Geometry.MidpointsCoincideIffPointsCoincide | src/decide/helpers.py:27-35 | the midpoint test returns None exactly when two of the three points coincide |
| Geometry.SlopesEqualIffCollinear | src/decide/helpers.py:36-44 | for distinct points, the three slopes (None when vertical) are equal exactly when the points are collinear |
| Geometry.CalculateCircumcenter | src/decide/helpers.py:22-58 | None exactly when the points are collinear (coincident points included); otherwise the solved center |
| Lic.Lic0 | src/decide/lic.py:17-29 | true exactly when two consecutive points are more than LENGTH1 apart |
| Lic.Lic1 | src/decide/lic.py:31-54 | true exactly when some three consecutive points have a side longer than 2·RADIUS1 or a circumcenter farther than RADIUS1 from the first point |
| Lic.Lic2 | src/decide/lic.py:56-76 | true exactly when some consecutive triple has a defined angle below pi − EPSILON or above pi + EPSILON |
| Lic.Lic3 | src/decide/lic.py:78-96 | true exactly when some consecutive triple has a non-zero area greater than AREA1 |
| Lic.Lic3IgnoresCollinearTriples | src/decide/lic.py:88-95 | if every consecutive triple is collinear, LIC 3 is false whatever AREA1 is |
| Lic.Lic3AreaEqualToBound | src/decide/lic.py:93-95 | the triangle (0,0),(2,0),(0,2) has area exactly 2, so LIC 3 with AREA1 = 2 is false |
| Lic.QuadrantLabel | src/decide/lic.py:107-117 | the label set of a point lies within {1,2,3,4} |
| Lic.QuadrantLabelRule | src/decide/lic.py:107-117 | at most one label; label 1 exactly when x >= 0 and y >= 0; no label exactly on the negative x or negative y axis |
| Lic.QuadrantsOf | src/decide/lic.py:105-117 | the quadrants of a window lie within {1,2,3,4} |
| Lic.QuadrantsOfMembers | src/decide/lic.py:105-117 | quadrant k is in a window's set exactly when some point of the window has label k |
| Lic.QuadrantsOfAppend | src/decide/lic.py:106-117 | extending the window by one point adds exactly that point's label |
| Lic.WindowQuadrants | src/decide/lic.py:106-117 | the inner loop builds the quadrant set of POINTS[i .. i+Q_PTS) |
| Lic.Lic4 | src/decide/lic.py:98-122 | true exactly when Q_PTS >= 1, there are at least Q_PTS points, and some window of Q_PTS consecutive points covers more than QUADS quadrants |
| Lic.Lic4NeedsFewerThanFourQuads | src/decide/lic.py:119-120 | with QUADS >= 4, LIC 4 is never met |
| Lic.Lic5 | src/decide/lic.py:124-135 | true exactly when some consecutive pair has X[j] − X[i] < 0 |
| Lic.FarPointInWindow | src/decide/lic.py:155-171 | the inner loops find an interior point farther than DIST from the window's ends: from the coincident end point, otherwise from the line through the ends |
| Lic.ChordDistanceComparison | src/decide/lic.py:166-170 | the squared test FarFromChord equals abs(cross)/sqrt(chord²) > DIST for DIST >= 0 |
| Lic.Lic6 | src/decide/lic.py:137-173 | corrected LIC 6: true exactly when len(POINTS) >= 3, N_PTS <= len(POINTS), DIST >= 0 and some window of N_PTS points has an interior point far from its ends; false for N_PTS = 0 |
| Lic.Lic6NeedsThreeWindowPoints | src/decide/lic.py:152-171 | with N_PTS <= 2 a window has no interior point and LIC 6 is false |
| Lic.PyIndex | src/decide/lic.py:152-153 | Python list indexing: defined exactly for −len <= k < len and equal to s[k] for k >= 0 |
| Lic.Lic6AsWritten | src/decide/lic.py:137-173 | as written: IndexError exactly when the guard passes with N_PTS = 0; in every other case the corrected result |
| Lic.Lic6AsWrittenWithDefaults | src/decide/decide.py:20-38 | with the default parameters and three or more points, LIC 6 as written raises IndexError |
| Lic.Lic7 | src/decide/lic.py:175-193 | true exactly when len(POINTS) >= 3, 1 <= K_PTS <= len(POINTS) − 2 and some pair K_PTS apart is more than LENGTH1 apart |
| Lic.Lic8 | src/decide/lic.py:195-238 | true exactly when the guard on A_PTS, B_PTS holds and some spaced triple has a side longer than 2·RADIUS1 or non-zero area and circumradius above RADIUS1 |
| Lic.Lic9 | src/decide/lic.py:240-264 | true exactly when the guard on C_PTS, D_PTS holds and some spaced triple has a defined angle with abs(angle − pi) > EPSILON |
| Lic.AngleTestsAgree | src/decide/lic.py:259-263 | the LIC 9 angle test abs(angle − pi) > EPSILON and the LIC 2 test angle < pi − EPSILON or angle > pi + EPSILON agree |
| Lic.Lic10 | src/decide/lic.py:266-304 | true exactly when the guard on E_PTS, F_PTS holds and some spaced triple has area > AREA1 |
| Lic.Lic10HoldsForNegativeArea | src/decide/lic.py:266-304 | once the guard holds, a negative AREA1 makes LIC 10 true |
| Lic.Lic10Example | src/decide/lic.py:288-301 | five points whose triple P0, P2, P4 has area 50: LIC 10 holds for AREA1 = 40 and not for 50 |
| Lic.Lic11 | src/decide/lic.py:306-333 | true exactly when NUMPOINTS >= 3, 1 <= G_PTS <= NUMPOINTS − 2 and some pair G_PTS apart has X[j] − X[i] < 0 |
| Lic.Lic12 | src/decide/lic.py:335-378 | true exactly when NUMPOINTS >= 3, 1 <= K_PTS <= NUMPOINTS − 2, LENGTH1 >= 0, LENGTH2 >= 0 and some pair K_PTS apart is more than LENGTH1 apart and some (other) pair is less than LENGTH2 apart |
| Lic.Lic12ImpliesLic7 | src/decide/lic.py:335-378 | whenever LIC 12 holds, so does LIC 7 |
| Lic.LongestSide | src/decide/lic.py:413-417 | distances.index(max(distances)): the first index of a greatest side |
| Lic.LongestSideOfSquares | src/decide/lic.py:413-417 | comparing squared sides picks the same index as comparing sides |
| Lic.Lic13Window | src/decide/lic.py:403-437 | one triple's contribution to conditions A and B, and whether the circumcenter exists (exactly when the triple is not collinear) |
| Lic.Lic13 | src/decide/lic.py:380-442 | true exactly when the guard holds and some spaced triple meets condition A and some, possibly other, triple meets condition B |
| Lic.Lic14 | src/decide/lic.py:444-483 | true exactly when there are >= 5 points, AREA2 >= 0, some spaced triple has area > AREA1 and some has area < AREA2 |
| Lic.Lic14ImpliesLic10 | src/decide/lic.py:444-483 | with E_PTS, F_PTS >= 1, whenever LIC 14 holds, so does LIC 10 |
| Lic.EvaluateLic | src/decide/decide.py:90-108 | the k-th entry of the list of check methods computes condition k |
| Engine.NumPointsAssignment | src/decide/decide.py:46-54 | immutability error once set, whatever the value; otherwise success exactly for an int in [2, 100], which is stored |
| Engine.PointsAssignment | src/decide/decide.py:60-77 | each of the four errors exactly when its check is the first to fail; accepted exactly when all four checks pass, and then the points number 2..100 and match a set NUMPOINTS |
| Engine.ApplyOutcome | src/decide/decide.py:60-81 | a failing assignment changes nothing; a successful POINTS assignment leaves NUMPOINTS == len(POINTS) |
| Engine.ApplyPreservesConfigOk | src/decide/decide.py:46-81 | every assignment keeps NUMPOINTS in [2, 100] and the stored points numbering NUMPOINTS |
| Engine.ApplyKeepsNumPoints | src/decide/decide.py:48-51 | once NUMPOINTS is set, no assignment changes it |
| Engine.RunPreservesConfigOk | src/decide/decide.py:46-81 | the invariant holds after any sequence of assignments |
| Engine.RunKeepsNumPoints | src/decide/decide.py:48-51 | NUMPOINTS is write-once across any sequence of assignments |
| Engine.NumPointsAssignedTwice | src/decide/decide.py:46-54 | NUMPOINTS = 5 then 10: the second raises the immutability error and 5 stays |
| Engine.PumEntrySymmetric | src/decide/decide.py:127-134 | a recognised connector gives the same PUM entry for (i, j) and (j, i) |
| Engine.Decide.constructor | src/decide/decide.py:7-40 | the initial state: NUMPOINTS unset, no points, all parameters 0, CMV false, LCM NOTUSED, PUM true, PUV and FUV false, LAUNCH NO |
| Engine.Decide.SetNumPoints | src/decide/decide.py:46-54 | the new state and the exception are those of NumPointsAssignment |
| Engine.Decide.SetPoints | src/decide/decide.py:60-81 | the new state and the exception are those of PointsAssignment followed by the NUMPOINTS assignment |
| Engine.Decide.CalculateCMV | src/decide/decide.py:83-113 | CMV[k] is LIC k on the current points and parameters, for every k |
| Engine.Decide.CalculatePUM | src/decide/decide.py:115-134 | PUM[i][j] is CMV[i] AND/OR CMV[j] or true as LCM[i][j] says, else unchanged; a symmetric LCM gives a symmetric PUM provided the old PUM is symmetric wherever the connector is unrecognised |
| Engine.Decide.CalculateFUV | src/decide/decide.py:136-153 | FUV[i] is true exactly when PUV[i] is false or the whole PUM row i is true |
| Engine.Decide.Decide | src/decide/decide.py:155-167 | corrected decide: CMV, PUM and FUV as above; LAUNCH is YES exactly when every FUV entry is true, and YES when no PUV entry is set |
| Engine.Decide.CalculateCMVAsWritten | src/decide/decide.py:83-113 | calculate_CMV as written, with LIC 6 as written: IndexError exactly when LIC 6 raises, and then CMV[0..5] are written and CMV[6..14] unchanged; otherwise every CMV[k] is LIC k |
| Engine.Decide.DecideAsWritten | src/decide/decide.py:155-167 | decide as written: IndexError exactly when LIC 6 as written raises, leaving PUM, FUV and LAUNCH unchanged; otherwise PUM and FUV as in Decide, then AttributeError exactly when no FUV attribute exists, with LAUNCH unchanged; otherwise LAUNCH is YES exactly when every entry of that attribute is true |
| Engine.DecideAsWrittenOnNewInstance | src/decide/decide.py:166 | on a new instance given two points, LIC 6 is held back by its guard and decide as written raises AttributeError |
| Engine.DecideAsWrittenWithThreePoints | src/decide/lic.py:152-153 | on a new instance given three points, the default N_PTS = 0 makes decide as written raise IndexError in calculate_CMV |
| Snapshot.Decide.constructor | code/decide.py:5-36 | the same initial state as the later class |
| Snapshot.Decide.SetNumPoints | code/decide.py:42-50 | the write-once and range checks, proved to give the new state and the exception of Engine.NumPointsAssignment |
| Snapshot.Decide.SetPoints | code/decide.py:56-77 | the four checks in source order, proved to give the new state and the exception of Engine.PointsAssignment followed by the NUMPOINTS assignment |
| Snapshot.Lic0Check | code/LIC_check.py:4-16 | lic_0_check equals LIC 0 of the later code with LENGTH1 = length1, and is false for fewer than two points |
| Snapshot.DistanceEqualToLengthIsNotExceeded | code/test_LIC_check.py:9 | (0,0),(3,4) are exactly 5 apart: LIC 0 with LENGTH1 = 5 is false |
| Snapshot.DistanceAboveLengthIsExceeded | code/test_LIC_check.py:10 | (0,0),(4,5) are sqrt(41) apart: LIC 0 with LENGTH1 = 5 is true |

## Left out

- Floating point: coordinates and parameters are exact reals. Rounding in `sqrt`, in division and in `==` tests on computed floats (the zero-area tests of LIC 3 and LIC 8, the slope comparison of the circumcenter) is not modelled.
- Geometry.CalculateAngle: the arc cosine is a supplied function `angleAt`. Only its `None` guard and its use are modelled.
- Geometry.CalculateCircumcenter: the sympy equation solving is a supplied function `centerOf`. The model does not prove that the value is equidistant from the vertices. The coincidence and collinearity guards are modelled exactly.
- Lic.Lic8: the Heron circumradius is a supplied function `heronRadius`. Heron's `area == 0` skip is stated as the shoelace area being zero; in exact arithmetic both mean the triple is collinear.
- Counts as `nat`: Q_PTS, QUADS, N_PTS, K_PTS and A_PTS … G_PTS cannot be negative. Python's negative-index wrap-around for negative counts is therefore not modelled, except in `Lic.Lic6AsWritten`, where index −1 arises from N_PTS = 0.
- Type checks: `isinstance` and tuple length are modelled by the value kinds `Engine.Value`, `Engine.Number`, `Engine.RawPoint` and `Engine.RawPoints`. Python's bool counting as an int is not distinguished.
- Exceptions are modelled by the kind in `Engine.ConfigError` only. The message strings are not modelled: "between 0 and 100" in both NUMPOINTS setters, and in the older POINTS setter, where the checked range is [2, 100].
- Engine.Decide.SetPoints / Snapshot.Decide.SetPoints: the source stores POINTS and then assigns NUMPOINTS. The model assigns NUMPOINTS first. Both steps succeed, so the final state is the same.
- Engine.Decide.CalculateCMV, Engine.Decide.Decide: CMV[6] is the corrected Lic.Lic6, so the IndexError of src/decide/lic.py:153 (N_PTS = 0, DIST >= 0, three or more points) is not raised there; Engine.Decide.CalculateCMVAsWritten and Engine.Decide.DecideAsWritten model it.
- Engine.Decide.CalculateCMV, Engine.Decide.CalculateCMVAsWritten, Engine.Decide.Decide and Engine.Decide.DecideAsWritten require NUMPOINTS == len(POINTS). LIC 10–12 read NUMPOINTS and the others len(POINTS), and the setters keep the two equal once points are stored. Two states are not modelled: NUMPOINTS set with no points stored, and a new instance (NUMPOINTS None, no points), on which the source raises TypeError comparing None with 5 in LIC 10 (src/decide/lic.py:278).
- POINTS aliasing: the source stores the caller's list itself (src/decide/decide.py:79), so a later change to that list changes POINTS but not NUMPOINTS and can break NUMPOINTS == len(POINTS). The model stores a copy of the points as a value, so ConfigOk, RunPreservesConfigOk and the requires of CalculateCMV do not cover a caller that mutates the list after assigning it.
- LCM, PUV and the parameters are fields that callers assign directly, as in the source. The model has no setters for them.
- The `LIC` helper object and the `__main__` demonstration blocks are not modelled.

## Findings

| source | as written | input that shows it | evidently intended | confidence | as-written member | corrected member |
|---|---|---|---|---|---|---|
| src/decide/lic.py:152-153 | with N_PTS = 0 the window loop runs `range(len(POINTS) + 1)` and reads `POINTS[len(POINTS)]` | the default parameters (N_PTS = 0, DIST = 0) and any three points: IndexError in calculate_CMV | LIC 6 is not met when N_PTS is below 3 | not executed | Lic.Lic6AsWritten | Lic.Lic6 |
| src/decide/decide.py:166 | `all(self.FUV)` reads an attribute the class never defines (only `_FUV`) | a new Decide instance given two points, then decide(): AttributeError | LAUNCH is YES exactly when every entry of the computed FUV is true | not executed | Engine.Decide.DecideAsWritten | Engine.Decide.Decide |
