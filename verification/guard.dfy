/**
 * The rotation guard around the construction: all four input points are
 * rotated by a fixed angle, the construction runs in that frame, and C and D
 * are rotated back by the opposite angle. The angle only moves the cases
 * where a denominator vanishes; it does not change any result that exists.
 */
module Guard {
  import opened Vectors
  import opened Trapezium

  function RotateChoice(ch: Choice, g: Rotation): Choice {
    Choice(Rotate(ch.p, g), Rotate(ch.off, g))
  }

  function RotateCorners(k: Corners, g: Rotation): Corners {
    Corners(Rotate(k.c, g), Rotate(k.d, g))
  }

  /** The offset from AB turns with the frame. */
  lemma OffsetRotate(a: Vec2, b: Vec2, p: Vec2, g: Rotation)
    requires Unit(g) && a != b
    ensures Rotate(a, g) != Rotate(b, g)
    ensures Offset(Rotate(a, g), Rotate(b, g), Rotate(p, g)) == Rotate(Offset(a, b, p), g)
  {
    RotateInjective(a, b, g);
    var ap, u := Sub(p, a), Sub(b, a);
    assert u != Zero;
    RotateSub(p, a, g);
    RotateSub(b, a, g);
    RotateProject(ap, u, g);
    RotateSub(ap, Project(ap, u), g);
  }

  /** The choice between the constraint points turns with the frame. */
  lemma ChooseRotate(a: Vec2, b: Vec2, p1: Vec2, p2: Vec2, g: Rotation)
    requires Unit(g) && a != b
    ensures Rotate(a, g) != Rotate(b, g)
    ensures Choose(Rotate(a, g), Rotate(b, g), Rotate(p1, g), Rotate(p2, g))
         == RotateChoice(Choose(a, b, p1, p2), g)
  {
    OffsetRotate(a, b, p1, g);
    OffsetRotate(a, b, p2, g);
    var d1, d2 := Offset(a, b, p1), Offset(a, b, p2);
    RotateIsometry(d1, d1, g);
    RotateIsometry(d2, d2, g);
  }

  /** The frame-free description of the result turns with the frame. */
  lemma FitsRotate(a: Vec2, b: Vec2, ch: Choice, k: Corners, g: Rotation)
    requires Unit(g) && Fits(a, b, ch, k)
    ensures Fits(Rotate(a, g), Rotate(b, g), RotateChoice(ch, g), RotateCorners(k, g))
  {
    var T := Turn45(ch.off);
    RotateTurns(ch.off, g);
    RotateTurns(T, g);
    RotateSub(k.d, a, g);
    RotateIsometry(Sub(k.d, a), T, g);
    RotateSub(k.c, b, g);
    RotateIsometry(Sub(k.c, b), Perp(T), g);
    RotateSub(b, a, g);
    RotateSub(k.d, ch.p, g);
    RotateIsometry(Sub(k.d, ch.p), Sub(b, a), g);
    RotateSub(k.c, ch.p, g);
    RotateIsometry(Sub(k.c, ch.p), Sub(b, a), g);
  }

  /**
   * Rotates the inputs by g, constructs C and D in that frame and rotates
   * them back by the opposite angle. A result that exists is the trapezium
   * of the original frame: the guard leaves no trace in it.
   */
  function Solve(a: Vec2, b: Vec2, p1: Vec2, p2: Vec2, g: Rotation): (r: Result<Corners>)
    requires Unit(g)
    ensures r == Failure(DegenerateSide) <==> a == b
    ensures r.Success? ==> a != b && Fits(a, b, Choose(a, b, p1, p2), r.value)
    ensures r.Success? ==> a != b && (Choose(a, b, p1, p2).off == Zero ==> r.value == Corners(b, a))
  {
    RotateInjective(a, b, g);
    match Construct(Rotate(a, g), Rotate(b, g), Rotate(p1, g), Rotate(p2, g))
    case Failure(e) => Failure(e)
    case Success(k) =>
      SolveFits(a, b, p1, p2, g, k);
      Success(RotateCorners(k, Inverse(g)))
  }

  /**
   * A result found in the rotated frame, rotated back, fits the original
   * points, and is B and A again when the offset is zero.
   */
  lemma SolveFits(a: Vec2, b: Vec2, p1: Vec2, p2: Vec2, g: Rotation, k: Corners)
    requires Unit(g)
    requires Construct(Rotate(a, g), Rotate(b, g), Rotate(p1, g), Rotate(p2, g)) == Success(k)
    ensures a != b && Fits(a, b, Choose(a, b, p1, p2), RotateCorners(k, Inverse(g)))
    ensures a != b && (Choose(a, b, p1, p2).off == Zero ==> RotateCorners(k, Inverse(g)) == Corners(b, a))
  {
    RotateInjective(a, b, g);
    var ch := Choose(a, b, p1, p2);
    ChooseRotate(a, b, p1, p2, g);
    var rch := RotateChoice(ch, g);
    FitsRotate(Rotate(a, g), Rotate(b, g), rch, k, Inverse(g));
    RotateRoundTrip(a, g);
    RotateRoundTrip(b, g);
    RotateRoundTrip(ch.p, g);
    RotateRoundTrip(ch.off, g);
    assert RotateChoice(rch, Inverse(g)) == ch;
    if ch.off == Zero {
      assert rch.off == Zero;
    }
  }

  /**
   * Whatever guard angle is used, every result that exists is the same: the
   * rotation there and back is invisible in the returned coordinates.
   */
  lemma GuardIndependent(a: Vec2, b: Vec2, p1: Vec2, p2: Vec2, g1: Rotation, g2: Rotation)
    requires Unit(g1) && Unit(g2)
    requires Solve(a, b, p1, p2, g1).Success? && Solve(a, b, p1, p2, g2).Success?
    ensures Solve(a, b, p1, p2, g1) == Solve(a, b, p1, p2, g2)
  {
    var ch := Choose(a, b, p1, p2);
    if ch.off != Zero {
      FitsUnique(a, b, ch, Solve(a, b, p1, p2, g1).value, Solve(a, b, p1, p2, g2).value);
    }
  }

  /**
   * The returned quadrilateral ABCD has orthogonal legs, a far side CD
   * parallel to AB, and the signed leg angles of the turned slopes: 135 or
   * -45 degrees from AB to AD, 45 or -135 degrees from BA to BC.
   */
  lemma SolveShape(a: Vec2, b: Vec2, p1: Vec2, p2: Vec2, g: Rotation)
    requires Unit(g) && Solve(a, b, p1, p2, g).Success?
    ensures TrapeziumShape(a, b, Solve(a, b, p1, p2, g).value)
  {
    FitsShape(a, b, Choose(a, b, p1, p2), Solve(a, b, p1, p2, g).value);
  }

  /**
   * The far side passes through the constraint point with the longer offset
   * from AB, measured in the original frame; on a tie, through P2.
   */
  lemma SolveThroughFartherPoint(a: Vec2, b: Vec2, p1: Vec2, p2: Vec2, g: Rotation)
    requires Unit(g) && Solve(a, b, p1, p2, g).Success?
    ensures var k := Solve(a, b, p1, p2, g).value;
      var d1, d2 := Offset(a, b, p1), Offset(a, b, p2);
      var p := if Dot(d1, d1) > Dot(d2, d2) then p1 else p2;
      Parallel(Sub(k.d, p), Sub(b, a)) && Parallel(Sub(k.c, p), Sub(b, a))
  {
  }
}
