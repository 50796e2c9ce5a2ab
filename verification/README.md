# Right-trapezium construction, modelled in Dafny

`construct_trapezium.py` takes two known vertices A and B of a trapezium and
two constraint points P1 and P2. It computes the two other vertices C and D,
with the far side CD parallel to AB. CD passes through whichever constraint
point is farther from line AB. The legs AD and BC are orthogonal, and the
docstring promises interior angles of 135 degrees at A and B.

The solver works in five steps:

1. It rotates all four points by a fixed guard angle.
2. It takes the perpendicular offset of each constraint point from AB, by
   vector projection.
3. It keeps the farther constraint point.
4. It turns the direction of that offset into the slope `mA` of leg AD, and
   sets `mB = -1/mA` for leg BC.
5. It intersects both legs with the parallel to AB through the kept point.
   Then it rotates C and D back.

The model is written over exact reals, in five modules.

- `Vectors` (`vectors.dfy`) covers 2-D vectors, dot and cross products, the
  projection of `project_a_onto_b`, and rotations. A rotation is a pair
  (c, s) with c² + s² = 1, standing for (cos θ, sin θ).
- `Trapezium` (`trapezium.dfy`) is the construction inside the rotated
  frame: offsets, selection, slopes and line intersections.
  - Every division whose denominator can be zero is an explicit `Failure`
    of type `Singularity`. The failures are checked in the order the script
    divides.
  - `Fits` describes the result without slopes: D is on the leg through A,
    C is on the leg through B, and both are on the parallel through the
    chosen point. It is the frame-free partner of the slope formulas, and
    `FitsUnique` shows it pins C and D down.
- `Guard` (`guard.dfy`) is the rotate / construct / rotate-back composition,
  `Solve`.
- `Properties` (`properties.dfy`) holds properties that relate several runs:
  - independence of the guard angle;
  - behaviour under a rigid motion;
  - exchanging P1 and P2;
  - collinear constraint points;
  - the worked example A = (0, 0), B = (2, 0), P1 = (1, 1), P2 = (1, -0.3).
- `ClosedForm` (`closedform.dfy`) gives the corners in closed form:
  D = A + d + perp(d) and C = B + d − perp(d), with d the chosen offset.
  From this it derives the exact angles at A and B, and a correction, under
  "## Findings".

## Model

| member | source | states |
|---|---|---|
| Vectors.Project | construct_trapezium.py:17-19 | for b ≠ 0 the projection of a onto b is parallel to b and leaves a residual orthogonal to b; b = 0 is excluded, because the division by b·b has no value |
| Vectors.ProjectUnique | construct_trapezium.py:17-19 | any vector parallel to b whose residual is orthogonal to b is the projection, so the two properties characterise it |
| Vectors.Slope | construct_trapezium.py:69 | for a non-vertical direction, the slope times the run equals the rise |
| Vectors.Rotate | construct_trapezium.py:21-25 | the matrix [[c, −s], [s, c]] applied to a vector; its contract is stated by Vectors.RotateRoundTrip, Vectors.RotateIsometry and Vectors.RotateInjective: undone by the opposite rotation, and preserving dot and cross products |
| Vectors.Inverse | construct_trapezium.py:80-81 | the rotation by the opposite angle, (c, −s); Vectors.RotateRoundTrip states that it undoes Rotate in both orders |
| Vectors.RotateRoundTrip | construct_trapezium.py:21-25 | for a unit (c, s), rotating by (c, s) and then by (c, −s) returns the vector unchanged, and so does the reverse order |
| Vectors.RotateIsometry | construct_trapezium.py:21-25 | a rotation preserves dot and cross products, hence lengths, angles and orientation |
| Vectors.RotateInjective | construct_trapezium.py:21-25 | a rotation maps distinct points to distinct points |
| Vectors.RotateProject | construct_trapezium.py:17-25 | projecting and then rotating is the same as rotating both vectors and then projecting |
| Trapezium.Offset | construct_trapezium.py:53-55 | the offset of P from AB is orthogonal to AB, and P minus the offset lies on line AB |
| Trapezium.Select | construct_trapezium.py:56-62 | the kept pair is one of the two given pairs, and a tie keeps the second |
| Trapezium.SelectFarther | construct_trapezium.py:56-62 | the kept offset is at least as long as either offset; P1 is kept exactly when its offset is strictly longer, otherwise P2 |
| Trapezium.Choose | construct_trapezium.py:49-62 | the chosen pair is a constraint point with its true offset from AB |
| Trapezium.Tangent | construct_trapezium.py:64 | tan(atan2(y, x)) times x equals y; it is 0 for the zero vector; it has no value for a vertical non-zero offset |
| Trapezium.LegSlopeA | construct_trapezium.py:65-66 | (1 + t)/(1 − t) is the slope of the offset turned by 45 degrees, or 1 for the zero offset |
| Trapezium.NotDiagonal | construct_trapezium.py:66 | a tangent other than 1 means the offset is off the diagonal y = x, so the turned leg is not vertical |
| Trapezium.LegSlopeB | construct_trapezium.py:67-68 | mA · mB = −1, so the legs are orthogonal |
| Trapezium.LegSlopeBTurns | construct_trapezium.py:67-68 | mB is the slope of the offset turned by 135 degrees |
| Trapezium.Meet | construct_trapezium.py:70-77 | the computed point is on the line through q with slope m and on the line through P with slope mAB |
| Trapezium.MeetUnique | construct_trapezium.py:70-77 | any point on both lines is the computed point |
| Trapezium.LegsNotParallelToSide | construct_trapezium.py:66-75 | for a non-zero offset that passes the earlier guards, neither leg has the slope of AB, so the divisions by mA − mAB and mB − mAB are safe |
| Trapezium.Construct | construct_trapezium.py:49-77 | fails with DegenerateSide exactly when A = B; a result satisfies Fits for the chosen point; the zero offset gives D = A and C = B |
| Trapezium.PlaceCorners | construct_trapezium.py:64-77 | VerticalOffset exactly for a vertical non-zero offset (tan of line 64 undefined); DiagonalOffset exactly for a non-vertical offset with y = x (1 − tan = 0, line 66); HorizontalLeg exactly for a non-vertical offset with y = −x (mA = 0, line 68); VerticalSide only for a vertical AB; ParallelLeg only for the zero offset; a result satisfies Fits |
| Trapezium.MeetLegs | construct_trapezium.py:69-77 | once the slopes exist, the intersections fail only for the zero offset, and otherwise satisfy Fits |
| Trapezium.MeetFitsD | construct_trapezium.py:70-73 | the computed D is on the leg through A along the turned offset, and on the parallel through the chosen point |
| Trapezium.MeetFitsC | construct_trapezium.py:74-77 | the computed C is on the leg through B orthogonal to AD, and on the parallel through the chosen point |
| Trapezium.ZeroOffsetCorners | construct_trapezium.py:70-77 | with the zero offset the parallel is AB itself, so D = A and C = B |
| Trapezium.FitsUnique | construct_trapezium.py:70-77 | for a non-zero offset at most one pair (C, D) satisfies the slope-free description |
| Trapezium.LegsOrthogonal | construct_trapezium.py:67-68 | in any solution AD is orthogonal to BC |
| Trapezium.FarSideParallel | construct_trapezium.py:69-77 | in any solution CD is parallel to AB |
| Trapezium.AngleAtA | construct_trapezium.py:65-66 | in any solution the signed angle from AB to AD has cosine equal to minus its sine: 135 or −45 degrees |
| Trapezium.AngleAtB | construct_trapezium.py:67-68 | in any solution the signed angle from BA to BC has cosine equal to its sine: 45 or −135 degrees |
| Trapezium.FitsShape | construct_trapezium.py:64-77 | every solution has orthogonal legs, CD parallel to AB, and the signed leg angles above |
| Guard.OffsetRotate | construct_trapezium.py:44-55 | the offset computed from rotated points is the rotated offset |
| Guard.ChooseRotate | construct_trapezium.py:44-62 | the selection in the rotated frame picks the same point, with its offset rotated |
| Guard.FitsRotate | construct_trapezium.py:79-81 | the slope-free description of a result is preserved by a rotation |
| Guard.Solve | construct_trapezium.py:43-81 | fails with DegenerateSide exactly when A = B; a result, rotated back, satisfies Fits for the chosen point in the original frame |
| Guard.RotateCorners | construct_trapezium.py:80-81 | rotates C and D back; Guard.SolveFits states that the rotated-back corners fit the original points, and Guard.FitsRotate that Fits is preserved |
| Guard.SolveFits | construct_trapezium.py:79-81 | a result of the rotated frame, rotated back by the opposite angle, fits the original points |
| Guard.GuardIndependent | construct_trapezium.py:43-47 | any two guard angles that both give a result give the same C and D |
| Guard.SolveShape | construct_trapezium.py:4-5 | every returned ABCD has orthogonal legs, CD parallel to AB, and signed leg angles of 135 or −45 degrees at A and 45 or −135 degrees at B |
| Guard.SolveThroughFartherPoint | construct_trapezium.py:56-77 | C and D lie on the parallel to AB through P1 when P1's offset is strictly longer, and through P2 otherwise |
| Properties.RigidMotion | construct_trapezium.py:43-81 | rotating and translating A, B, P1 and P2 rotates and translates C and D by the same motion |
| Properties.ChooseMove | construct_trapezium.py:49-62 | under a rigid motion the chosen point moves with the motion and its offset turns with it |
| Properties.OnSideIffZeroOffset | construct_trapezium.py:53-55 | a point's offset is zero exactly when the point lies on line AB |
| Properties.CollinearConstraints | construct_trapezium.py:53-77 | when both constraint points are on line AB, any result is D = A and C = B |
| Properties.ChooseSwap | construct_trapezium.py:56-62 | when one offset is strictly longer, the order of P1 and P2 does not affect the choice |
| Properties.SameOffsetIffSameParallel | construct_trapezium.py:53-55 | two points have the same offset exactly when they lie on the same parallel to AB |
| Properties.SwapConstraints | construct_trapezium.py:56-62 | exchanging P1 and P2 keeps the result, unless the offsets are equally long but different |
| Properties.ChooseTie | construct_trapezium.py:56-62 | on a tie each order keeps its second point |
| Properties.SwapTieDiffers | construct_trapezium.py:56-62 | on a tie between different offsets, the two orders give different results |
| Properties.XAxisOppositeTie | construct_trapezium.py:56-62 | with A at the origin and B on the x-axis, two points mirrored in AB give different results in the two orders |
| Properties.OffsetFromXAxis | construct_trapezium.py:53-55 | for AB along the x-axis from the origin, the offset of (x, y) is (0, y) |
| Properties.XAxisNeedsGuard | construct_trapezium.py:43-47 | with A at the origin, B on the x-axis and P1 strictly farther from AB, the unguarded construction stops at the vertical offset |
| Properties.ExampleNeedsGuard | construct_trapezium.py:43-47 | the worked example stops at the vertical offset when unrotated |
| Properties.XAxisResult | construct_trapezium.py:64-77 | with A at the origin, B on the x-axis and P1 strictly farther from AB at height h, any result is D = (−h, h) and C = (xB + h, h) |
| Properties.ExampleResult | construct_trapezium.py:43-81 | for the worked example, any guard angle that gives a result gives D = (−1, 1) and C = (3, 1) |
| Properties.GuardedSucceeds | construct_trapezium.py:64-77 | once every guard in the rotated frame passes, a result exists |
| Properties.OffDiagonals | construct_trapezium.py:64-68 | a non-vertical offset off both diagonals passes the slope guards |
| Properties.XAxisGuarded | construct_trapezium.py:43-47 | with A at the origin, B on the x-axis and P1 strictly farther from AB, the guard with cos = 3/5 and sin = 4/5 gives a result |
| Properties.ExampleGuarded | construct_trapezium.py:43-81 | with that guard the worked example returns D = (−1, 1) and C = (3, 1) |
| ClosedForm.ReferenceFits | construct_trapezium.py:64-77 | D = A + d + perp(d) and C = B + d − perp(d) satisfy the slope-free description |
| ClosedForm.SolveClosedForm | construct_trapezium.py:64-81 | for a non-zero offset, every result is the closed form of the chosen offset |
| ClosedForm.ReferenceProducts | construct_trapezium.py:64-77 | the cosines at A and B both have numerator −Cross(AB, d); both legs have squared length 2·d·d; CD runs along AB as AB·AB + 2·Cross(AB, d) |
| ClosedForm.ReferenceHalfCosines | construct_trapezium.py:4-5 | the squared cosines at A and B are exactly one half, so the legs meet AB at 45 or 135 degrees |
| ClosedForm.ReferenceAngles | construct_trapezium.py:4-5 | the angles at A and B are obtuse exactly when d points to the left of AB, and acute exactly when it points to the right |
| ClosedForm.SolveAngles | construct_trapezium.py:4-5 | every result has its angles at A and B on the side of the chosen point: 135 degrees on the left, 45 on the right |
| ClosedForm.BelowCollapses | construct_trapezium.py:64-77 | for A = (0, 0), B = (2, 0), P1 = (1, −1), P2 = (1, 0.3) the result has C = D = (1, −1) |
| ClosedForm.IntendedSolve | construct_trapezium.py:49-77 | the corrected construction fails only when A = B, and then with DegenerateSide; C and D lie on the parallel through the chosen point |
| ClosedForm.SideAwareOnParallel | construct_trapezium.py:69-77 | both corrected corners lie on the parallel to AB through the chosen point |
| ClosedForm.MirroredProducts | construct_trapezium.py:64-77 | right of AB, the corrected corners mirror the closed form: the angle products flip sign, leg lengths are kept, CD ∥ AB with AB·AB − 2·Cross(AB, d), and the legs are orthogonal |
| ClosedForm.SideAwareShape | construct_trapezium.py:4-5 | on either side of AB, the corrected corners have 135-degree angles at A and B, orthogonal legs, and CD parallel to AB, running the same way |
| ClosedForm.ReferenceShape | construct_trapezium.py:67-77 | the closed form has orthogonal legs and CD parallel to AB |
| ClosedForm.IntendedShape | construct_trapezium.py:4-5 | every corrected result for a non-zero offset has the shape the docstring promises |
| ClosedForm.IntendedAgreesOnLeft | construct_trapezium.py:64-81 | when the chosen point is left of AB, the construction and its correction return the same result |
| ClosedForm.XAxisIntended | construct_trapezium.py:64-77 | with A at the origin, B on the positive x-axis and P1 strictly farther from AB at height h < 0, the corrected result is D = (h, h) and C = (xB − h, h) |
| ClosedForm.BelowIntended | construct_trapezium.py:64-77 | on the collapsing input the corrected result is D = (−1, −1) and C = (3, −1) |

## Left out

- Argument parsing and the arity check (lines 27-35, 98-106), printing (lines 83-87) and plotting (lines 88-95). These are I/O around the solver, and the model starts from the four points.
- The transcendental functions:
  - The guard angle of e radians becomes any pair (c, s) with c² + s² = 1. Its reverse is (c, −s). The examples use the rational pair (3/5, 4/5), because cos e and sin e are not expressible over exact reals.
  - tan(atan2(y, x)) becomes y / x, or 0 for the zero vector.
- Floating-point arithmetic. Python does not stop at a zero denominator: numpy yields inf or nan, and tan(π/2) is a large finite float. The model returns a `Singularity` failure at each such division instead. Rounding, and the claim that the guard angle makes singularities unlikely, are about floats and are not modelled.
- The legs in `Meet` are lines through a point with a slope, as in the script. Vertical legs are therefore failures, not solutions.
- Guard.SolveShape, Trapezium.AngleAtA and Trapezium.AngleAtB: weaker than the docstring's 135 degrees at A and B. They state a signed angle of 135 or −45 degrees at A, and 45 or −135 degrees at B, because the code does not deliver the promised angle when the chosen point lies right of AB (see "## Findings").
- ClosedForm.SolveClosedForm, ClosedForm.SolveAngles and ClosedForm.IntendedShape: stated for a non-zero offset only. With the zero offset both constraint points lie on line AB and there is no trapezium; `Guard.Solve` already fixes that result at D = A and C = B.
- Properties.SwapConstraints: stated only when the offsets differ in length or are equal. With equally long but different offsets the script keeps whichever point comes second, so exchanging P1 and P2 does change the result, as `Properties.SwapTieDiffers` proves. The result is therefore symmetric in P1 and P2 only up to this tie.
- Properties.RigidMotion and Guard.GuardIndependent: they compare results only when both runs return one. A motion or guard angle can move an input onto a singular slope, where one run fails and the other does not.

## Findings

| source | as written | input that shows it | evidently intended | confidence | as-written member | corrected member |
|---|---|---|---|---|---|---|
| construct_trapezium.py:64-66 (angles promised at lines 4-5) | leg AD is always the offset direction turned +45 degrees, whichever side of AB the chosen point is on | A = (0, 0), B = (2, 0), P1 = (1, −1), P2 = (1, 0.3): C = D = (1, −1), a triangle with 45-degree angles at A and B | legs turned towards the chosen point's side, so that A and B always have 135-degree angles: here D = (−1, −1) and C = (3, −1) | not executed | ClosedForm.BelowCollapses | ClosedForm.IntendedShape |

`ClosedForm.SolveAngles` generalises the as-written half. It shows that the
angles at A and B are 135 degrees exactly when the chosen point lies left
of AB, and 45 degrees when it lies right. `ClosedForm.IntendedSolve` is the
corrected construction. `ClosedForm.SideAwareShape` and
`ClosedForm.IntendedShape` prove the promised shape for it.
`ClosedForm.IntendedAgreesOnLeft` proves it agrees with the script wherever
the script is right. `ClosedForm.BelowIntended` gives its result on the
input above.
