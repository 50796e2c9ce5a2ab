/**
 * Properties of the whole construction that relate several runs: moving
 * all input points rigidly, exchanging the two constraint points, and the
 * worked example A = (0, 0), B = (2, 0), P1 = (1, 1), P2 = (1, -0.3).
 */
module Properties {
  import opened Vectors
  import opened Trapezium
  import opened Guard

  /** The rigid motion that rotates by h and then translates by t. */
  function Move(v: Vec2, h: Rotation, t: Vec2): Vec2 { Add(Rotate(v, h), t) }

  function MoveCorners(k: Corners, h: Rotation, t: Vec2): Corners {
    Corners(Move(k.c, h, t), Move(k.d, h, t))
  }

  /** Differences, and so offsets, do not see a translation. */
  lemma SubTranslate(x: Vec2, y: Vec2, t: Vec2)
    ensures Sub(Add(x, t), Add(y, t)) == Sub(x, y)
  {
  }

  lemma OffsetTranslate(a: Vec2, b: Vec2, p: Vec2, t: Vec2)
    requires a != b
    ensures Add(a, t) != Add(b, t)
    ensures Offset(Add(a, t), Add(b, t), Add(p, t)) == Offset(a, b, p)
  {
    SubTranslate(p, a, t);
    SubTranslate(b, a, t);
    assert Add(a, t) != Add(b, t) by {
      assert Sub(Add(b, t), Add(a, t)) != Zero;
    }
  }

  /** Under a rigid motion the chosen point moves and its offset turns. */
  lemma ChooseMove(a: Vec2, b: Vec2, p1: Vec2, p2: Vec2, h: Rotation, t: Vec2)
    requires Unit(h) && a != b
    ensures Move(a, h, t) != Move(b, h, t)
    ensures var ch := Choose(a, b, p1, p2);
      Choose(Move(a, h, t), Move(b, h, t), Move(p1, h, t), Move(p2, h, t))
        == Choice(Move(ch.p, h, t), Rotate(ch.off, h))
  {
    ChooseRotate(a, b, p1, p2, h);
    var ra, rb, rp1, rp2 := Rotate(a, h), Rotate(b, h), Rotate(p1, h), Rotate(p2, h);
    OffsetTranslate(ra, rb, rp1, t);
    OffsetTranslate(ra, rb, rp2, t);
  }

  /** The frame-free description of the result follows a rigid motion. */
  lemma FitsMove(a: Vec2, b: Vec2, ch: Choice, k: Corners, h: Rotation, t: Vec2)
    requires Unit(h) && Fits(a, b, ch, k)
    ensures Fits(Move(a, h, t), Move(b, h, t), Choice(Move(ch.p, h, t), Rotate(ch.off, h)),
                 MoveCorners(k, h, t))
  {
    FitsRotate(a, b, ch, k, h);
    var rk := RotateCorners(k, h);
    var rp := Rotate(ch.p, h);
    SubTranslate(rk.d, Rotate(a, h), t);
    SubTranslate(rk.c, Rotate(b, h), t);
    SubTranslate(rk.d, rp, t);
    SubTranslate(rk.c, rp, t);
    SubTranslate(Rotate(b, h), Rotate(a, h), t);
  }

  /**
   * Moving A, B, P1 and P2 by a rotation and a translation moves C and D by
   * the same motion: the construction does not depend on the coordinate frame.
   */
  lemma RigidMotion(a: Vec2, b: Vec2, p1: Vec2, p2: Vec2, g: Rotation, h: Rotation, t: Vec2)
    requires Unit(g) && Unit(h)
    requires Solve(a, b, p1, p2, g).Success?
    requires Solve(Move(a, h, t), Move(b, h, t), Move(p1, h, t), Move(p2, h, t), g).Success?
    ensures Solve(Move(a, h, t), Move(b, h, t), Move(p1, h, t), Move(p2, h, t), g).value
         == MoveCorners(Solve(a, b, p1, p2, g).value, h, t)
  {
    var ch := Choose(a, b, p1, p2);
    var k := Solve(a, b, p1, p2, g).value;
    var ma, mb := Move(a, h, t), Move(b, h, t);
    ChooseMove(a, b, p1, p2, h, t);
    if ch.off != Zero {
      RotateInjective(ch.off, Zero, h);
      FitsMove(a, b, ch, k, h, t);
      FitsUnique(ma, mb, Choose(ma, mb, Move(p1, h, t), Move(p2, h, t)),
                 Solve(ma, mb, Move(p1, h, t), Move(p2, h, t), g).value, MoveCorners(k, h, t));
    }
  }

  /** A point lies on line AB exactly when its offset from AB is zero. */
  lemma OnSideIffZeroOffset(a: Vec2, b: Vec2, p: Vec2)
    requires a != b
    ensures Offset(a, b, p) == Zero <==> Parallel(Sub(p, a), Sub(b, a))
  {
    var u := Sub(b, a);
    assert u != Zero;
    if Parallel(Sub(p, a), u) {
      ProjectUnique(Sub(p, a), u, Sub(p, a));
    } else {
      assert Sub(Sub(p, a), Zero) == Sub(p, a);
    }
  }

  /**
   * When both constraint points lie on line AB the far side is AB itself:
   * any result is the collapsed quadrilateral with D = A and C = B.
   */
  lemma CollinearConstraints(a: Vec2, b: Vec2, p1: Vec2, p2: Vec2, g: Rotation)
    requires Unit(g) && Solve(a, b, p1, p2, g).Success?
    requires Parallel(Sub(p1, a), Sub(b, a)) && Parallel(Sub(p2, a), Sub(b, a))
    ensures Solve(a, b, p1, p2, g).value == Corners(b, a)
  {
    OnSideIffZeroOffset(a, b, p1);
    OnSideIffZeroOffset(a, b, p2);
  }

  /** When one offset is strictly longer, the order of P1 and P2 does not matter to the choice. */
  lemma ChooseSwap(a: Vec2, b: Vec2, p1: Vec2, p2: Vec2)
    requires a != b
    requires var d1, d2 := Offset(a, b, p1), Offset(a, b, p2); Dot(d1, d1) != Dot(d2, d2)
    ensures Choose(a, b, p1, p2) == Choose(a, b, p2, p1)
  {
  }

  /**
   * Two points have the same offset from AB exactly when they lie on the
   * same parallel to AB.
   */
  lemma SameOffsetIffSameParallel(a: Vec2, b: Vec2, p1: Vec2, p2: Vec2)
    requires a != b
    ensures Offset(a, b, p1) == Offset(a, b, p2) <==> Parallel(Sub(p1, p2), Sub(b, a))
  {
    var d1, d2 := Offset(a, b, p1), Offset(a, b, p2);
    var u := Sub(b, a);
    SubLeft(Sub(p1, a), d1, u);
    SubLeft(Sub(p2, a), d2, u);
    assert Sub(p1, p2) == Sub(Sub(p1, a), Sub(p2, a));
    SubLeft(Sub(p1, a), Sub(p2, a), u);
    SubLeft(d1, d2, u);
    assert u != Zero;
    if Parallel(Sub(p1, p2), u) {
      ParallelAndOrthogonal(Sub(d1, d2), u);
    }
  }

  /** Corners fitted through one point also fit through any point with the same offset. */
  lemma SameOffsetSameParallel(a: Vec2, b: Vec2, p1: Vec2, p2: Vec2, d: Vec2, k: Corners)
    requires a != b && Offset(a, b, p1) == d && Offset(a, b, p2) == d
    requires Fits(a, b, Choice(p2, d), k)
    ensures Fits(a, b, Choice(p1, d), k)
  {
    var u := Sub(b, a);
    SameOffsetIffSameParallel(a, b, p1, p2);
    assert Sub(k.d, p1) == Sub(Sub(k.d, p2), Sub(p1, p2));
    assert Sub(k.c, p1) == Sub(Sub(k.c, p2), Sub(p1, p2));
    SubLeft(Sub(k.d, p2), Sub(p1, p2), u);
    SubLeft(Sub(k.c, p2), Sub(p1, p2), u);
  }

  /**
   * Exchanging P1 and P2 gives the same C and D, except when the two offsets
   * are equally long but different: then each order keeps its second point.
   */
  lemma SwapConstraints(a: Vec2, b: Vec2, p1: Vec2, p2: Vec2, g: Rotation)
    requires Unit(g) && a != b
    requires Solve(a, b, p1, p2, g).Success? && Solve(a, b, p2, p1, g).Success?
    requires var d1, d2 := Offset(a, b, p1), Offset(a, b, p2);
      Dot(d1, d1) != Dot(d2, d2) || d1 == d2
    ensures Solve(a, b, p1, p2, g) == Solve(a, b, p2, p1, g)
  {
    var d1, d2 := Offset(a, b, p1), Offset(a, b, p2);
    var k12, k21 := Solve(a, b, p1, p2, g).value, Solve(a, b, p2, p1, g).value;
    var ch21 := Choose(a, b, p2, p1);
    if Dot(d1, d1) != Dot(d2, d2) {
      ChooseSwap(a, b, p1, p2);
    } else {
      assert Choose(a, b, p1, p2) == Choice(p2, d1);
      assert ch21 == Choice(p1, d1);
      SameOffsetSameParallel(a, b, p1, p2, d1, k12);
    }
    if ch21.off != Zero {
      FitsUnique(a, b, ch21, k12, k21);
    }
  }

  /** Offsets from a side that starts at the origin and runs along the x-axis. */
  lemma OffsetFromXAxis(a: Vec2, b: Vec2, p: Vec2)
    requires a == Zero && b.y == 0.0 && b.x != 0.0
    ensures Offset(a, b, p) == Vec2(0.0, p.y)
  {
    assert Sub(p, a) == p && Sub(b, a) == b;
    ProjectUnique(p, b, Vec2(p.x, 0.0));
  }

  /** On a tie the choice keeps the second point, whichever order the points come in. */
  lemma ChooseTie(a: Vec2, b: Vec2, p1: Vec2, p2: Vec2)
    requires a != b
    requires var d1, d2 := Offset(a, b, p1), Offset(a, b, p2); Dot(d1, d1) == Dot(d2, d2)
    ensures Choose(a, b, p1, p2).p == p2 && Choose(a, b, p2, p1).p == p1
  {
  }

  /** Corners fitted through two points on different parallels to AB have different D. */
  lemma FitsThroughDifferentParallels(a: Vec2, b: Vec2, ch1: Choice, ch2: Choice, k1: Corners, k2: Corners)
    requires a != b && Offset(a, b, ch1.p) != Offset(a, b, ch2.p)
    requires Fits(a, b, ch1, k1) && Fits(a, b, ch2, k2)
    ensures k1.d != k2.d
  {
    var u := Sub(b, a);
    if k1.d == k2.d {
      assert Sub(ch2.p, ch1.p) == Sub(Sub(k1.d, ch1.p), Sub(k2.d, ch2.p));
      SubLeft(Sub(k1.d, ch1.p), Sub(k2.d, ch2.p), u);
      SameOffsetIffSameParallel(a, b, ch2.p, ch1.p);
    }
  }

  /**
   * Exchanging P1 and P2 changes the result whenever the two offsets are
   * equally long but different, as for two points at the same distance on
   * opposite sides of AB: each order keeps its second point.
   */
  lemma SwapTieDiffers(a: Vec2, b: Vec2, p1: Vec2, p2: Vec2, g: Rotation)
    requires Unit(g) && a != b
    requires Solve(a, b, p1, p2, g).Success? && Solve(a, b, p2, p1, g).Success?
    requires var d1, d2 := Offset(a, b, p1), Offset(a, b, p2);
      Dot(d1, d1) == Dot(d2, d2) && d1 != d2
    ensures Solve(a, b, p1, p2, g) != Solve(a, b, p2, p1, g)
  {
    ChooseTie(a, b, p1, p2);
    FitsThroughDifferentParallels(a, b, Choose(a, b, p1, p2), Choose(a, b, p2, p1),
      Solve(a, b, p1, p2, g).value, Solve(a, b, p2, p1, g).value);
  }

  /**
   * Points mirrored in the side AB along the x-axis are equally far from it
   * on opposite sides: whenever both orders have a result, the results differ.
   */
  lemma XAxisOppositeTie(a: Vec2, b: Vec2, p1: Vec2, p2: Vec2, g: Rotation)
    requires a == Zero && b.y == 0.0 && b.x != 0.0 && p1.y != 0.0 && p2.y == -p1.y && Unit(g)
    requires Solve(a, b, p1, p2, g).Success? && Solve(a, b, p2, p1, g).Success?
    ensures Solve(a, b, p1, p2, g) != Solve(a, b, p2, p1, g)
  {
    XAxisMirrorOffsets(a, b, p1, p2);
    SwapTieDiffers(a, b, p1, p2, g);
  }

  /** Mirrored points have offsets of equal length and opposite direction. */
  lemma XAxisMirrorOffsets(a: Vec2, b: Vec2, p1: Vec2, p2: Vec2)
    requires a == Zero && b.y == 0.0 && b.x != 0.0 && p1.y != 0.0 && p2.y == -p1.y
    ensures a != b
    ensures var d1, d2 := Offset(a, b, p1), Offset(a, b, p2);
      Dot(d1, d1) == Dot(d2, d2) && d1 != d2
  {
    OffsetFromXAxis(a, b, p1);
    OffsetFromXAxis(a, b, p2);
  }

  /** Along the x-axis the farther point's offset is vertical and not zero. */
  lemma XAxisChosenOffset(a: Vec2, b: Vec2, p1: Vec2, p2: Vec2)
    requires a == Zero && b.y == 0.0 && b.x != 0.0 && p1.y * p1.y > p2.y * p2.y
    ensures a != b && Choose(a, b, p1, p2) == Choice(p1, Vec2(0.0, p1.y)) && p1.y != 0.0
  {
    OffsetFromXAxis(a, b, p1);
    OffsetFromXAxis(a, b, p2);
    SquareNonNegative(p2.y);
  }

  /**
   * Without the guard, a side along the x-axis always stops the
   * construction: the offset of the farther point is vertical.
   */
  lemma XAxisNeedsGuard(a: Vec2, b: Vec2, p1: Vec2, p2: Vec2)
    requires a == Zero && b.y == 0.0 && b.x != 0.0 && p1.y * p1.y > p2.y * p2.y
    ensures Construct(a, b, p1, p2) == Failure(VerticalOffset)
  {
    XAxisChosenOffset(a, b, p1, p2);
  }

  /**
   * Along the x-axis, with the farther point at height h, every result is
   * D = (-h, h) and C = (xB + h, h).
   */
  lemma XAxisResult(a: Vec2, b: Vec2, p1: Vec2, p2: Vec2, g: Rotation)
    requires a == Zero && b.y == 0.0 && b.x != 0.0 && p1.y * p1.y > p2.y * p2.y
    requires Unit(g) && Solve(a, b, p1, p2, g).Success?
    ensures Solve(a, b, p1, p2, g).value == Corners(Vec2(b.x + p1.y, p1.y), Vec2(-p1.y, p1.y))
  {
    XAxisChosenOffset(a, b, p1, p2);
    assert b == Vec2(b.x, 0.0) && p1 == Vec2(p1.x, p1.y);
    XAxisFits(b.x, p1.x, p1.y);
    SolveIsTheFit(a, b, p1, p2, g, Corners(Vec2(b.x + p1.y, p1.y), Vec2(-p1.y, p1.y)));
  }

  /** The points of the worked example. */
  predicate ExamplePoints(a: Vec2, b: Vec2, p1: Vec2, p2: Vec2) {
    a == Zero && b == Vec2(2.0, 0.0) && p1 == Vec2(1.0, 1.0) && p2 == Vec2(1.0, -0.3)
  }

  /** In the worked example AB lies on the x-axis and P1 is the farther point. */
  lemma ExampleOnXAxis(a: Vec2, b: Vec2, p1: Vec2, p2: Vec2)
    requires ExamplePoints(a, b, p1, p2)
    ensures a == Zero && b.y == 0.0 && b.x != 0.0 && p1.y * p1.y > p2.y * p2.y
  {
  }

  /**
   * The worked example A = (0, 0), B = (2, 0), P1 = (1, 1), P2 = (1, -0.3):
   * in the unrotated frame the offset of P1 is vertical, so tan(atan2(1, 0))
   * has no value and the construction stops there.
   */
  lemma ExampleNeedsGuard(a: Vec2, b: Vec2, p1: Vec2, p2: Vec2)
    requires ExamplePoints(a, b, p1, p2)
    ensures Construct(a, b, p1, p2) == Failure(VerticalOffset)
  {
    ExampleOnXAxis(a, b, p1, p2);
    XAxisNeedsGuard(a, b, p1, p2);
  }

  /**
   * Along the x-axis, with the chosen point at height h, D is (-h, h) and C
   * is (w + h, h).
   */
  lemma XAxisFits(w: real, px: real, h: real)
    ensures Fits(Zero, Vec2(w, 0.0), Choice(Vec2(px, h), Vec2(0.0, h)), Corners(Vec2(w + h, h), Vec2(-h, h)))
  {
  }

  /** A guarded result is the one solution of the description for the chosen point. */
  lemma SolveIsTheFit(a: Vec2, b: Vec2, p1: Vec2, p2: Vec2, g: Rotation, k: Corners)
    requires Unit(g) && Solve(a, b, p1, p2, g).Success? && Choose(a, b, p1, p2).off != Zero
    requires Fits(a, b, Choose(a, b, p1, p2), k)
    ensures Solve(a, b, p1, p2, g).value == k
  {
    FitsUnique(a, b, Choose(a, b, p1, p2), Solve(a, b, p1, p2, g).value, k);
  }

  /**
   * The worked example under any guard angle: whenever a result exists it
   * is D = (-1, 1) and C = (3, 1).
   */
  lemma ExampleResult(a: Vec2, b: Vec2, p1: Vec2, p2: Vec2, g: Rotation)
    requires ExamplePoints(a, b, p1, p2) && Unit(g)
    requires Solve(a, b, p1, p2, g).Success?
    ensures Solve(a, b, p1, p2, g).value == Corners(Vec2(3.0, 1.0), Vec2(-1.0, 1.0))
  {
    ExampleOnXAxis(a, b, p1, p2);
    XAxisResult(a, b, p1, p2, g);
  }

  /**
   * An offset (x, y) that is off both diagonals and not vertical passes the
   * guards against the slopes: its tangent is not 1 and its leg AD is not
   * horizontal.
   */
  lemma OffDiagonals(d: Vec2)
    requires d.x != 0.0 && d.y != d.x && d.y != -d.x
    ensures LegSlopesDefined(d)
  {
    assert Turn45(d).y != 0.0;
  }

  /** Every guard against a zero denominator passed: the corners are placed. */
  lemma PlaceCornersSucceeds(a: Vec2, b: Vec2, ch: Choice)
    requires SlopesDefined(a, b, ch) && ch.off != Zero
    ensures PlaceCorners(a, b, ch).Success?
  {
  }

  /** A construction that succeeds in the turned frame makes the guarded result exist. */
  lemma SolveSucceeds(a: Vec2, b: Vec2, p1: Vec2, p2: Vec2, g: Rotation)
    requires Unit(g)
    requires Construct(Rotate(a, g), Rotate(b, g), Rotate(p1, g), Rotate(p2, g)).Success?
    ensures Solve(a, b, p1, p2, g).Success?
  {
  }

  /**
   * The guards of the construction in the frame turned by g all pass: the
   * turned offset of the chosen point is not vertical and lies off both
   * diagonals, and the turned side AB is not vertical.
   */
  predicate TurnedGuardsPass(a: Vec2, b: Vec2, p1: Vec2, p2: Vec2, g: Rotation, d: Vec2) {
    && Unit(g) && a != b && Rotate(Choose(a, b, p1, p2).off, g) == d
    && d.x != 0.0 && d.y != d.x && d.y != -d.x && Rotate(a, g).x != Rotate(b, g).x
  }

  /** The guarded construction has a result once every guard in the turned frame passes. */
  lemma GuardedSucceeds(a: Vec2, b: Vec2, p1: Vec2, p2: Vec2, g: Rotation, d: Vec2)
    requires TurnedGuardsPass(a, b, p1, p2, g, d)
    ensures Solve(a, b, p1, p2, g).Success?
  {
    ChooseRotate(a, b, p1, p2, g);
    var ra, rb := Rotate(a, g), Rotate(b, g);
    var ch := Choose(ra, rb, Rotate(p1, g), Rotate(p2, g));
    OffDiagonals(ch.off);
    PlaceCornersSucceeds(ra, rb, ch);
    SolveSucceeds(a, b, p1, p2, g);
  }

  /**
   * For every side along the x-axis the guard angle whose cosine is 3/5 and
   * sine 4/5 lets the construction through: the vertical offset (0, h) turns
   * into (-0.8 h, 0.6 h), off both diagonals, and AB turns off the vertical.
   */
  lemma XAxisGuarded(a: Vec2, b: Vec2, p1: Vec2, p2: Vec2)
    requires a == Zero && b.y == 0.0 && b.x != 0.0 && p1.y * p1.y > p2.y * p2.y
    ensures Unit(Rotation(0.6, 0.8)) && Solve(a, b, p1, p2, Rotation(0.6, 0.8)).Success?
  {
    XAxisChosenOffset(a, b, p1, p2);
    var g := Rotation(0.6, 0.8);
    var h := p1.y;
    assert Rotate(Vec2(0.0, h), g) == Vec2(-0.8 * h, 0.6 * h);
    assert Rotate(b, g).x == 0.6 * b.x;
    GuardedSucceeds(a, b, p1, p2, g, Vec2(-0.8 * h, 0.6 * h));
  }

  /**
   * With the guard angle whose cosine is 3/5 and sine 4/5 the worked example
   * has its result D = (-1, 1) and C = (3, 1).
   */
  lemma ExampleGuarded(a: Vec2, b: Vec2, p1: Vec2, p2: Vec2)
    requires ExamplePoints(a, b, p1, p2)
    ensures Unit(Rotation(0.6, 0.8))
    ensures Solve(a, b, p1, p2, Rotation(0.6, 0.8)) == Success(Corners(Vec2(3.0, 1.0), Vec2(-1.0, 1.0)))
  {
    XAxisGuarded(a, b, p1, p2);
    ExampleResult(a, b, p1, p2, Rotation(0.6, 0.8));
  }
}
