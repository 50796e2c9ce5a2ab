/**
 * The corners the construction places, in closed form. With d the offset of
 * the chosen point from AB, the leg through A meets the far side at
 * D = A + d + perp(d) and the leg through B meets it at C = B + d - perp(d),
 * perp(d) being d turned counter-clockwise by a right angle. From this form
 * the angles at A and B follow exactly, and so does the side of AB on which
 * the promised 135-degree angles appear.
 */
module ClosedForm {
  import opened Vectors
  import opened Trapezium
  import opened Guard
  import opened Properties

  /** C = B + d - perp(d) and D = A + d + perp(d). */
  function Reference(a: Vec2, b: Vec2, d: Vec2): Corners {
    Corners(Add(b, Sub(d, Perp(d))), Add(a, Turn45(d)))
  }

  /** The closed form meets the frame-free description of the result. */
  lemma ReferenceFits(a: Vec2, b: Vec2, ch: Choice)
    requires IsOffset(a, b, ch)
    ensures Fits(a, b, ch, Reference(a, b, ch.off))
  {
    var u, d := Sub(b, a), ch.off;
    var k := Reference(a, b, d);
    var r := Sub(Sub(ch.p, a), d);
    assert Sub(k.d, a) == Turn45(d);
    assert Sub(k.c, b) == Sub(d, Perp(d));
    assert Sub(k.d, ch.p) == Sub(Perp(d), r);
    SubLeft(Perp(d), r, u);
    assert Sub(k.c, ch.p) == Sub(Sub(u, Perp(d)), r);
    SubLeft(Sub(u, Perp(d)), r, u);
    SubLeft(u, Perp(d), u);
  }

  /**
   * Every result of the guarded construction for a non-zero offset is the
   * closed form for the offset of the chosen point. For the zero offset the
   * contract of Solve already fixes the result at C = B and D = A.
   */
  lemma SolveClosedForm(a: Vec2, b: Vec2, p1: Vec2, p2: Vec2, g: Rotation)
    requires Unit(g) && Solve(a, b, p1, p2, g).Success? && Choose(a, b, p1, p2).off != Zero
    ensures Solve(a, b, p1, p2, g).value == Reference(a, b, Choose(a, b, p1, p2).off)
  {
    var ch := Choose(a, b, p1, p2);
    ReferenceFits(a, b, ch);
    FitsUnique(a, b, ch, Solve(a, b, p1, p2, g).value, Reference(a, b, ch.off));
  }

  /**
   * For an offset d orthogonal to u = B - A, the cosines of the angles at A
   * and at B are both -Cross(u, d) / (|u| |d| sqrt 2), and the far side
   * runs from D to C as u - 2 perp(d).
   */
  lemma ReferenceProducts(a: Vec2, b: Vec2, d: Vec2)
    requires Orthogonal(d, Sub(b, a))
    ensures var k, u := Reference(a, b, d), Sub(b, a);
      && Dot(u, Sub(k.d, a)) == -Cross(u, d)
      && Dot(Sub(a, b), Sub(k.c, b)) == -Cross(u, d)
      && Dot(Sub(k.d, a), Sub(k.d, a)) == 2.0 * Dot(d, d)
      && Dot(Sub(k.c, b), Sub(k.c, b)) == 2.0 * Dot(d, d)
      && Dot(Sub(k.c, k.d), u) == Dot(u, u) + 2.0 * Cross(u, d)
  {
    var k, u := Reference(a, b, d), Sub(b, a);
    assert Sub(k.d, a) == Turn45(d);
    assert Sub(k.c, b) == Sub(d, Perp(d));
    assert Sub(k.c, k.d) == Sub(u, Scale(2.0, Perp(d)));
  }

  /** The squared cosine of an angle between u and a leg v with Dot(u, v)^2 == |u|^2 |v|^2 / 2 is one half. */
  predicate HalfSquaredCosine(u: Vec2, v: Vec2) {
    2.0 * (Dot(u, v) * Dot(u, v)) == Dot(u, u) * Dot(v, v)
  }

  /**
   * The legs make angles of exactly 45 or 135 degrees with AB: the squared
   * cosine at A and at B is one half, since Cross(u, d)^2 == |u|^2 |d|^2 for
   * an orthogonal offset.
   */
  lemma ReferenceHalfCosines(a: Vec2, b: Vec2, d: Vec2)
    requires Orthogonal(d, Sub(b, a))
    ensures var k := Reference(a, b, d);
      HalfSquaredCosine(Sub(b, a), Sub(k.d, a)) && HalfSquaredCosine(Sub(a, b), Sub(k.c, b))
  {
    var k, u := Reference(a, b, d), Sub(b, a);
    ReferenceProducts(a, b, d);
    Lagrange(u, d);
    assert Dot(Sub(a, b), Sub(a, b)) == Dot(u, u);
  }

  /** The cross product of AB with a non-zero orthogonal offset does not vanish. */
  lemma CrossNonZero(u: Vec2, d: Vec2)
    requires u != Zero && d != Zero && Orthogonal(d, u)
    ensures Cross(u, d) != 0.0
  {
    OrthogonalNotParallel(u, d);
  }

  /**
   * In a solution for a non-zero offset d, the angles at A and at B are 135
   * degrees exactly when d points to the left of AB, and both are 45
   * degrees when it points to the right; the far side runs the way AB does
   * only while twice the area Cross(AB, d) stays above -|AB|^2.
   */
  predicate AnglesBySide(a: Vec2, b: Vec2, d: Vec2, k: Corners) {
    var u := Sub(b, a);
    && (Dot(u, Sub(k.d, a)) < 0.0 <==> Cross(u, d) > 0.0)
    && (Dot(Sub(a, b), Sub(k.c, b)) < 0.0 <==> Cross(u, d) > 0.0)
    && (Dot(u, Sub(k.d, a)) > 0.0 <==> Cross(u, d) < 0.0)
    && (Dot(Sub(a, b), Sub(k.c, b)) > 0.0 <==> Cross(u, d) < 0.0)
    && HalfSquaredCosine(u, Sub(k.d, a)) && HalfSquaredCosine(Sub(a, b), Sub(k.c, b))
    && Dot(Sub(k.c, k.d), u) == Dot(u, u) + 2.0 * Cross(u, d)
  }

  /** The closed form has its angles on the side of its offset. */
  lemma ReferenceAngles(a: Vec2, b: Vec2, d: Vec2)
    requires a != b && d != Zero && Orthogonal(d, Sub(b, a))
    ensures AnglesBySide(a, b, d, Reference(a, b, d))
  {
    ReferenceProducts(a, b, d);
    ReferenceHalfCosines(a, b, d);
    CrossNonZero(Sub(b, a), d);
  }

  /** Every result of the guarded construction has its angles on the side of the chosen point. */
  lemma SolveAngles(a: Vec2, b: Vec2, p1: Vec2, p2: Vec2, g: Rotation)
    requires Unit(g) && Solve(a, b, p1, p2, g).Success? && Choose(a, b, p1, p2).off != Zero
    ensures AnglesBySide(a, b, Choose(a, b, p1, p2).off, Solve(a, b, p1, p2, g).value)
  {
    SolveClosedForm(a, b, p1, p2, g);
    ReferenceAngles(a, b, Choose(a, b, p1, p2).off);
  }

  /** The points of the counterexample: AB as in the worked example, P1 below it. */
  predicate BelowPoints(a: Vec2, b: Vec2, p1: Vec2, p2: Vec2) {
    a == Zero && b == Vec2(2.0, 0.0) && p1 == Vec2(1.0, -1.0) && p2 == Vec2(1.0, 0.3)
  }

  /** In the counterexample AB lies on the x-axis and P1 is the farther point. */
  lemma BelowOnXAxis(a: Vec2, b: Vec2, p1: Vec2, p2: Vec2)
    requires BelowPoints(a, b, p1, p2)
    ensures a == Zero && b.y == 0.0 && b.x > 0.0 && p1.y < 0.0 && p1.y * p1.y > p2.y * p2.y
  {
  }

  /**
   * A = (0, 0), B = (2, 0), P1 = (1, -1), P2 = (1, 0.3): the construction
   * succeeds, and C and D are the same point (1, -1), so ABCD is the
   * triangle ABD with angles of 45 degrees at A and at B.
   */
  lemma BelowCollapses(a: Vec2, b: Vec2, p1: Vec2, p2: Vec2)
    requires BelowPoints(a, b, p1, p2)
    ensures Unit(Rotation(0.6, 0.8))
    ensures Solve(a, b, p1, p2, Rotation(0.6, 0.8)) == Success(Corners(Vec2(1.0, -1.0), Vec2(1.0, -1.0)))
  {
    BelowOnXAxis(a, b, p1, p2);
    XAxisGuarded(a, b, p1, p2);
    XAxisResult(a, b, p1, p2, Rotation(0.6, 0.8));
  }

  /**
   * The corners with the legs turned towards the side of the chosen point:
   * D = A + d + s perp(d) and C = B + d - s perp(d), s being 1 when the
   * point lies on the left of AB or on it, and -1 on the right.
   */
  function SideAware(a: Vec2, b: Vec2, d: Vec2): Corners {
    if Cross(Sub(b, a), d) >= 0.0 then Reference(a, b, d)
    else Corners(Add(b, Turn45(d)), Add(a, Sub(d, Perp(d))))
  }

  /**
   * The construction with the legs turned towards the chosen point. It
   * needs no guard angle and fails only when A and B coincide.
   */
  function IntendedSolve(a: Vec2, b: Vec2, p1: Vec2, p2: Vec2): (r: Result<Corners>)
    ensures r.Failure? <==> a == b
    ensures r.Failure? ==> r.error == DegenerateSide
    ensures r.Success? ==> a != b && Parallel(Sub(r.value.d, Choose(a, b, p1, p2).p), Sub(b, a))
    ensures r.Success? ==> a != b && Parallel(Sub(r.value.c, Choose(a, b, p1, p2).p), Sub(b, a))
  {
    if a == b then Failure(DegenerateSide)
    else
      var ch := Choose(a, b, p1, p2);
      SideAwareOnParallel(a, b, ch);
      Success(SideAware(a, b, ch.off))
  }

  /** The corners of SideAware lie on the parallel to AB through the chosen point. */
  lemma SideAwareOnParallel(a: Vec2, b: Vec2, ch: Choice)
    requires IsOffset(a, b, ch)
    ensures var k := SideAware(a, b, ch.off);
      Parallel(Sub(k.d, ch.p), Sub(b, a)) && Parallel(Sub(k.c, ch.p), Sub(b, a))
  {
    var u, d := Sub(b, a), ch.off;
    var r := Sub(Sub(ch.p, a), d);
    if Cross(u, d) >= 0.0 {
      ReferenceFits(a, b, ch);
    } else {
      var k := SideAware(a, b, d);
      assert Sub(k.d, ch.p) == Sub(Scale(-1.0, Perp(d)), r);
      SubLeft(Scale(-1.0, Perp(d)), r, u);
      assert Sub(k.c, ch.p) == Sub(Add(u, Perp(d)), r);
      SubLeft(Add(u, Perp(d)), r, u);
    }
  }

  /**
   * On the right of AB the turned corners mirror the closed form: the
   * products that fix the angles at A and B and the direction of the far
   * side, with the sign of Cross(u, d) taken out.
   */
  lemma MirroredProducts(a: Vec2, b: Vec2, d: Vec2)
    requires Orthogonal(d, Sub(b, a)) && Cross(Sub(b, a), d) < 0.0
    ensures var k, u := SideAware(a, b, d), Sub(b, a);
      && Dot(u, Sub(k.d, a)) == Cross(u, d)
      && Dot(Sub(a, b), Sub(k.c, b)) == Cross(u, d)
      && Dot(Sub(k.d, a), Sub(k.d, a)) == 2.0 * Dot(d, d)
      && Dot(Sub(k.c, b), Sub(k.c, b)) == 2.0 * Dot(d, d)
      && Dot(Sub(k.c, k.d), u) == Dot(u, u) - 2.0 * Cross(u, d)
      && Parallel(Sub(k.c, k.d), u)
      && Orthogonal(Sub(k.d, a), Sub(k.c, b))
  {
    var k, u := SideAware(a, b, d), Sub(b, a);
    assert Sub(k.d, a) == Sub(d, Perp(d));
    assert Sub(k.c, b) == Turn45(d);
    assert Sub(k.c, k.d) == Add(u, Scale(2.0, Perp(d)));
  }

  /**
   * The shape the construction promises: angles of exactly 135 degrees at A
   * and at B, orthogonal legs, and a far side parallel to AB running the
   * same way.
   */
  predicate PromisedShape(a: Vec2, b: Vec2, k: Corners) {
    var u := Sub(b, a);
    && Dot(u, Sub(k.d, a)) < 0.0 && HalfSquaredCosine(u, Sub(k.d, a))
    && Dot(Sub(a, b), Sub(k.c, b)) < 0.0 && HalfSquaredCosine(Sub(a, b), Sub(k.c, b))
    && Orthogonal(Sub(k.d, a), Sub(k.c, b))
    && Parallel(Sub(k.c, k.d), u) && Dot(Sub(k.c, k.d), u) > 0.0
  }

  /** With the legs turned towards the offset, the corners have the promised shape on both sides of AB. */
  lemma SideAwareShape(a: Vec2, b: Vec2, d: Vec2)
    requires a != b && d != Zero && Orthogonal(d, Sub(b, a))
    ensures PromisedShape(a, b, SideAware(a, b, d))
  {
    var u := Sub(b, a);
    CrossNonZero(u, d);
    assert Dot(u, u) > 0.0 by {
      SquaredLengthZero(u);
      SquareNonNegative(u.x);
      SquareNonNegative(u.y);
    }
    Lagrange(u, d);
    assert Dot(Sub(a, b), Sub(a, b)) == Dot(u, u);
    if Cross(u, d) > 0.0 {
      ReferenceProducts(a, b, d);
      ReferenceHalfCosines(a, b, d);
      ReferenceShape(a, b, d);
    } else {
      MirroredProducts(a, b, d);
    }
  }

  /** The closed form has orthogonal legs and a far side parallel to AB. */
  lemma ReferenceShape(a: Vec2, b: Vec2, d: Vec2)
    requires Orthogonal(d, Sub(b, a))
    ensures var k := Reference(a, b, d);
      Orthogonal(Sub(k.d, a), Sub(k.c, b)) && Parallel(Sub(k.c, k.d), Sub(b, a))
  {
    var k := Reference(a, b, d);
    assert Sub(k.d, a) == Turn45(d);
    assert Sub(k.c, b) == Sub(d, Perp(d));
    assert Sub(k.c, k.d) == Sub(Sub(b, a), Scale(2.0, Perp(d)));
  }

  /** Every result of the corrected construction has the promised shape. */
  lemma IntendedShape(a: Vec2, b: Vec2, p1: Vec2, p2: Vec2)
    requires a != b && Choose(a, b, p1, p2).off != Zero
    ensures PromisedShape(a, b, IntendedSolve(a, b, p1, p2).value)
  {
    SideAwareShape(a, b, Choose(a, b, p1, p2).off);
  }

  /**
   * Where the chosen point lies to the left of AB the correction changes
   * nothing: every result of the construction is the corrected one.
   */
  lemma IntendedAgreesOnLeft(a: Vec2, b: Vec2, p1: Vec2, p2: Vec2, g: Rotation)
    requires Unit(g) && Solve(a, b, p1, p2, g).Success?
    requires Cross(Sub(b, a), Choose(a, b, p1, p2).off) > 0.0
    ensures Solve(a, b, p1, p2, g) == IntendedSolve(a, b, p1, p2)
  {
    CrossingIsNonZero(Sub(b, a), Choose(a, b, p1, p2).off);
    SolveClosedForm(a, b, p1, p2, g);
    IntendedOnLeft(a, b, p1, p2);
  }

  /** An offset strictly to one side of AB is not the zero vector. */
  lemma CrossingIsNonZero(u: Vec2, d: Vec2)
    requires Cross(u, d) != 0.0
    ensures d != Zero
  {
  }

  /** Left of AB the corrected construction is the closed form. */
  lemma IntendedOnLeft(a: Vec2, b: Vec2, p1: Vec2, p2: Vec2)
    requires a != b && Cross(Sub(b, a), Choose(a, b, p1, p2).off) >= 0.0
    ensures IntendedSolve(a, b, p1, p2) == Success(Reference(a, b, Choose(a, b, p1, p2).off))
  {
  }

  /**
   * Along the x-axis with B to the right of A and the farther point at a
   * height h below it, the corrected construction gives D = (h, h) and
   * C = (xB - h, h).
   */
  lemma XAxisIntended(a: Vec2, b: Vec2, p1: Vec2, p2: Vec2)
    requires a == Zero && b.y == 0.0 && b.x > 0.0 && p1.y < 0.0 && p1.y * p1.y > p2.y * p2.y
    ensures IntendedSolve(a, b, p1, p2) == Success(Corners(Vec2(b.x - p1.y, p1.y), Vec2(p1.y, p1.y)))
  {
    XAxisChosenOffset(a, b, p1, p2);
    assert Cross(Sub(b, a), Vec2(0.0, p1.y)) < 0.0;
  }

  /**
   * On the counterexample the corrected construction gives D = (-1, -1) and
   * C = (3, -1): a trapezium with 135-degree angles at A and B.
   */
  lemma BelowIntended(a: Vec2, b: Vec2, p1: Vec2, p2: Vec2)
    requires BelowPoints(a, b, p1, p2)
    ensures IntendedSolve(a, b, p1, p2) == Success(Corners(Vec2(3.0, -1.0), Vec2(-1.0, -1.0)))
  {
    BelowOnXAxis(a, b, p1, p2);
    XAxisIntended(a, b, p1, p2);
  }
}
