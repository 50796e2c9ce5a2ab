/**
 * The construction of the two unknown vertices C and D of the trapezium in a
 * fixed frame: perpendicular offsets of the constraint points from AB, the
 * choice of the farther one, the slopes of the two legs, and their meeting
 * points with the parallel to AB through the chosen point.
 */
module Trapezium {
  import opened Vectors

  /** A division of the construction whose denominator is zero. */
  datatype Singularity =
    | DegenerateSide  // A == B: the projection onto AB divides by |AB|^2 == 0
    | VerticalOffset  // the chosen offset is vertical and not zero: tan(atan2(y, 0)) has no value
    | DiagonalOffset  // tan of the offset direction is 1: the slope of leg AD divides by zero
    | HorizontalLeg   // the slope of leg AD is 0: the slope of leg BC divides by zero
    | VerticalSide    // xA == xB: the slope of AB divides by zero
    | ParallelLeg     // a leg has the slope of AB: its meeting point with the parallel divides by zero

  datatype Result<T> = Success(value: T) | Failure(error: Singularity)

  /** The constraint point that the far side passes through, and its offset from line AB. */
  datatype Choice = Choice(p: Vec2, off: Vec2)

  /** The two vertices the construction finds. */
  datatype Corners = Corners(c: Vec2, d: Vec2)

  /**
   * The perpendicular offset from line AB to p: the part of p - a orthogonal
   * to AB, so that p minus the offset lies on line AB.
   */
  function Offset(a: Vec2, b: Vec2, p: Vec2): (r: Vec2)
    requires a != b
    ensures Orthogonal(r, Sub(b, a))
    ensures Parallel(Sub(Sub(p, a), r), Sub(b, a))
  {
    assert Sub(b, a) != Zero;
    var ap := Sub(p, a);
    var proj := Project(ap, Sub(b, a));
    assert Sub(ap, Sub(ap, proj)) == proj;
    Sub(ap, proj)
  }

  /**
   * Keeps the constraint point with the longer offset; when the two offsets
   * are equally long the second point is kept.
   */
  function Select(p1: Vec2, d1: Vec2, p2: Vec2, d2: Vec2): (r: Choice)
    ensures r == Choice(p1, d1) || r == Choice(p2, d2)
    ensures Dot(d1, d1) == Dot(d2, d2) ==> r == Choice(p2, d2)
  {
    if Dot(d1, d1) > Dot(d2, d2) then Choice(p1, d1) else Choice(p2, d2)
  }

  /**
   * The kept offset is at least as long as either offset, and the first
   * point is kept exactly when its offset is strictly longer.
   */
  lemma SelectFarther(p1: Vec2, d1: Vec2, p2: Vec2, d2: Vec2)
    ensures var r := Select(p1, d1, p2, d2);
      Dot(r.off, r.off) >= Dot(d1, d1) && Dot(r.off, r.off) >= Dot(d2, d2)
    ensures Dot(d1, d1) > Dot(d2, d2) ==> Select(p1, d1, p2, d2) == Choice(p1, d1)
    ensures Dot(d1, d1) <= Dot(d2, d2) ==> Select(p1, d1, p2, d2) == Choice(p2, d2)
  {
  }

  /** The offsets of both constraint points from AB and the selection between them. */
  function Choose(a: Vec2, b: Vec2, p1: Vec2, p2: Vec2): (r: Choice)
    requires a != b
    ensures IsOffset(a, b, r)
    ensures r == Choice(p1, Offset(a, b, p1)) || r == Choice(p2, Offset(a, b, p2))
  {
    Select(p1, Offset(a, b, p1), p2, Offset(a, b, p2))
  }

  /**
   * tan(atan2(d.y, d.x)), the tangent of the direction of d: its slope when
   * d is not vertical, and 0 for the zero vector, whose arctangent is 0. It
   * has no value for a vertical d other than the zero vector.
   */
  function Tangent(d: Vec2): (t: real)
    requires d.x != 0.0 || d == Zero
    ensures t * d.x == d.y
    ensures d == Zero ==> t == 0.0
  {
    if d.x == 0.0 then 0.0 else Slope(d)
  }

  /**
   * The slope of leg AD, (1 + t) / (1 - t) with t the tangent of the offset
   * direction: the slope of the offset direction turned by 45 degrees, or 1
   * for the zero offset.
   */
  function LegSlopeA(d: Vec2): (mA: real)
    requires (d.x != 0.0 || d == Zero) && Tangent(d) != 1.0
    ensures d.x != 0.0 ==> Turn45(d).x != 0.0 && mA == Slope(Turn45(d))
    ensures d == Zero ==> mA == 1.0
  {
    var t := Tangent(d);
    var mA := (1.0 + t) / (1.0 - t);
    if d.x == 0.0 then mA
    else
      NotDiagonal(d);
      SlopeOfTurn45(d, t, mA);
      mA
  }

  /** A direction whose tangent is not 1 is off the diagonal y == x. */
  lemma NotDiagonal(d: Vec2)
    requires d.x != 0.0 && Tangent(d) != 1.0
    ensures d.x - d.y != 0.0
  {
    var t := Tangent(d);
    assert (t - 1.0) * d.x == d.y - d.x;
    if d.x - d.y == 0.0 {
      ProductZero(t - 1.0, d.x);
    }
  }

  /** Clears the denominators of (1 + t) / (1 - t) when t == d.y / d.x. */
  lemma SlopeOfTurn45(d: Vec2, t: real, mA: real)
    requires d.x != 0.0 && d.x - d.y != 0.0 && t * d.x == d.y && t != 1.0
    requires mA == (1.0 + t) / (1.0 - t)
    ensures mA == Slope(Turn45(d))
  {
    var T := Turn45(d);
    assert T.x == (1.0 - t) * d.x && T.y == (1.0 + t) * d.x;
    assert mA * (1.0 - t) == 1.0 + t;
    assert mA * T.x == T.y;
    var s := Slope(T);
    assert s * T.x == T.y;
    ProductZero(mA - s, T.x);
  }

  /** The slope of leg BC, taken so that BC is orthogonal to AD. */
  function LegSlopeB(mA: real): (mB: real)
    requires mA != 0.0
    ensures mA * mB == -1.0
  {
    -1.0 / mA
  }

  /**
   * The point where the line through q with slope m meets the line through p
   * with slope mAB; D is the meeting point for q = A and C the one for q = B.
   */
  function Meet(q: Vec2, m: real, p: Vec2, mAB: real): (r: Vec2)
    requires m != mAB
    ensures r.y - q.y == m * (r.x - q.x)
    ensures r.y - p.y == mAB * (r.x - p.x)
  {
    var x := (p.y - q.y + m * q.x - mAB * p.x) / (m - mAB);
    assert x * (m - mAB) == p.y - q.y + m * q.x - mAB * p.x;
    Vec2(x, mAB * (x - p.x) + p.y)
  }

  /** Two lines of different slopes meet in one point only. */
  lemma MeetUnique(q: Vec2, m: real, p: Vec2, mAB: real, r: Vec2)
    requires m != mAB
    requires r.y - q.y == m * (r.x - q.x)
    requires r.y - p.y == mAB * (r.x - p.x)
    ensures r == Meet(q, m, p, mAB)
  {
    var s := Meet(q, m, p, mAB);
    assert (r.x - s.x) * (m - mAB) == 0.0;
    ProductZero(r.x - s.x, m - mAB);
  }

  /**
   * The result described without slopes, so that it reads the same in every
   * frame: D is on the line through A along the offset turned by 45 degrees,
   * C on the line through B orthogonal to it, and both are on the line
   * through the chosen point parallel to AB.
   */
  predicate Fits(a: Vec2, b: Vec2, ch: Choice, k: Corners) {
    var leg := Turn45(ch.off);
    && Parallel(Sub(k.d, a), leg)
    && Parallel(Sub(k.c, b), Perp(leg))
    && Parallel(Sub(k.d, ch.p), Sub(b, a))
    && Parallel(Sub(k.c, ch.p), Sub(b, a))
  }

  /** A point on the line through q with slope m == Slope(v) is reached from q along v. */
  lemma OnSlopeLine(q: Vec2, m: real, v: Vec2, r: Vec2)
    requires v.x != 0.0 && m * v.x == v.y
    requires r.y - q.y == m * (r.x - q.x)
    ensures Parallel(Sub(r, q), v)
  {
    assert Cross(Sub(r, q), v) == (r.x - q.x) * (m * v.x) - (m * (r.x - q.x)) * v.x;
  }

  /** Turning by a right angle makes a non-zero slope m into -1/m. */
  lemma PerpSlope(v: Vec2, m: real)
    requires v.x != 0.0 && m * v.x == v.y && m != 0.0
    ensures Perp(v).x != 0.0
    ensures Slope(Perp(v)) * m == -1.0
  {
    assert Perp(v).x != 0.0 by {
      if v.y == 0.0 {
        ProductZero(m, v.x);
      }
    }
    var s := Slope(Perp(v));
    assert s * -v.y == v.x;
    assert (s * m + 1.0) * v.x == s * v.y + v.x;
    ProductZero(s * m + 1.0, v.x);
  }

  /**
   * The offset of a point off line AB crosses AB, and so do both legs: the
   * leg along the offset turned by 45 degrees and the leg orthogonal to it.
   */
  lemma LegsCrossSide(d: Vec2, u: Vec2)
    requires d != Zero && u != Zero && Orthogonal(d, u)
    ensures Cross(d, u) != 0.0
    ensures Cross(Turn45(d), u) == Cross(d, u)
    ensures Cross(Perp(Turn45(d)), u) == -Cross(d, u)
  {
    OrthogonalNotParallel(d, u);
  }

  /** Two directions with equal slopes are parallel. */
  lemma SameSlopeParallel(v: Vec2, w: Vec2)
    requires v.x != 0.0 && w.x != 0.0 && Slope(v) == Slope(w)
    ensures Parallel(v, w)
  {
    var m := Slope(v);
    assert Cross(v, w) == v.x * (m * w.x) - (m * v.x) * w.x;
  }

  /**
   * Once the offset is neither vertical nor diagonal and AB is not vertical,
   * neither leg has the slope of AB: the two divisions by mA - mAB and
   * mB - mAB never meet a zero denominator.
   */
  lemma LegsNotParallelToSide(d: Vec2, u: Vec2)
    requires Orthogonal(d, u) && d.x != 0.0 && Tangent(d) != 1.0 && u.x != 0.0
    ensures LegSlopeA(d) != Slope(u)
    ensures LegSlopeA(d) != 0.0 ==> LegSlopeB(LegSlopeA(d)) != Slope(u)
  {
    var T := Turn45(d);
    var mA := LegSlopeA(d);
    LegsCrossSide(d, u);
    if mA == Slope(u) {
      SameSlopeParallel(T, u);
      assert false;
    }
    if mA != 0.0 {
      var mB := LegSlopeB(mA);
      PerpSlope(T, mA);
      var sP := Slope(Perp(T));
      assert (sP - mB) * mA == 0.0;
      ProductZero(sP - mB, mA);
      if mB == Slope(u) {
        SameSlopeParallel(Perp(T), u);
        assert false;
      }
    }
  }

  /**
   * The construction in the current frame: A, B and the constraint points in,
   * C and D out, or the first division whose denominator is zero.
   */
  function Construct(a: Vec2, b: Vec2, p1: Vec2, p2: Vec2): (r: Result<Corners>)
    ensures r == Failure(DegenerateSide) <==> a == b
    ensures r == Failure(VerticalOffset) ==>
      a != b && Choose(a, b, p1, p2).off.x == 0.0 && Choose(a, b, p1, p2).off.y != 0.0
    ensures r == Failure(ParallelLeg) ==> a != b && Choose(a, b, p1, p2).off == Zero
    ensures r.Success? ==> a != b && Fits(a, b, Choose(a, b, p1, p2), r.value)
    ensures r.Success? ==> a != b && (Choose(a, b, p1, p2).off == Zero ==> r.value == Corners(b, a))
  {
    if a == b then Failure(DegenerateSide)
    else
      var ch := Choose(a, b, p1, p2);
      PlaceCorners(a, b, ch)
  }

  /**
   * From the chosen point and its offset: the slopes of the two legs and of
   * AB, each division guarded in the order the construction performs them.
   */
  function PlaceCorners(a: Vec2, b: Vec2, ch: Choice): (r: Result<Corners>)
    requires a != b && IsOffset(a, b, ch)
    ensures r != Failure(DegenerateSide)
    ensures r == Failure(VerticalOffset) <==> ch.off.x == 0.0 && ch.off.y != 0.0
    ensures r == Failure(DiagonalOffset) <==> ch.off.x != 0.0 && ch.off.y == ch.off.x
    ensures r == Failure(HorizontalLeg) <==> ch.off.x != 0.0 && ch.off.y == -ch.off.x
    ensures r == Failure(VerticalSide) ==> a.x == b.x
    ensures r == Failure(ParallelLeg) ==> ch.off == Zero
    ensures r.Success? ==> a.x != b.x && Fits(a, b, ch, r.value)
    ensures r.Success? && ch.off == Zero ==> r.value == Corners(b, a)
  {
    var d := ch.off;
    if d.x == 0.0 && d.y != 0.0 then Failure(VerticalOffset)
    else if Tangent(d) == 1.0 then Failure(DiagonalOffset)
    else if LegSlopeA(d) == 0.0 then Failure(HorizontalLeg)
    else if b.x == a.x then Failure(VerticalSide)
    else MeetLegs(a, b, ch)
  }

  /** ch.off is the offset of ch.p from line AB: orthogonal to AB, and ch.p minus it is on AB. */
  predicate IsOffset(a: Vec2, b: Vec2, ch: Choice) {
    Orthogonal(ch.off, Sub(b, a)) && Parallel(Sub(Sub(ch.p, a), ch.off), Sub(b, a))
  }

  /** The guards against the slopes of the legs pass for the offset d. */
  predicate LegSlopesDefined(d: Vec2) {
    (d.x != 0.0 || d == Zero) && Tangent(d) != 1.0 && LegSlopeA(d) != 0.0
  }

  /** The guards of PlaceCorners that pass before the legs are met with the parallel. */
  predicate SlopesDefined(a: Vec2, b: Vec2, ch: Choice) {
    a != b && IsOffset(a, b, ch) && a.x != b.x && LegSlopesDefined(ch.off)
  }

  /**
   * The points where the legs through A and B meet the parallel to AB
   * through the chosen point, unless a leg has the slope of AB, which
   * happens only for the zero offset.
   */
  function MeetLegs(a: Vec2, b: Vec2, ch: Choice): (r: Result<Corners>)
    requires SlopesDefined(a, b, ch)
    ensures r.Failure? ==> r.error == ParallelLeg && ch.off == Zero
    ensures r.Success? ==> Fits(a, b, ch, r.value)
    ensures r.Success? && ch.off == Zero ==> r.value == Corners(b, a)
  {
    var mA := LegSlopeA(ch.off);
    var mB := LegSlopeB(mA);
    var mAB := Slope(Sub(b, a));
    LegsNotParallelToSideOrZero(a, b, ch);
    if mA == mAB || mB == mAB then Failure(ParallelLeg)
    else
      MeetFitsD(a, b, ch);
      MeetFitsC(a, b, ch);
      ZeroOffsetCorners(a, b, ch);
      Success(Corners(Meet(b, mB, ch.p, mAB), Meet(a, mA, ch.p, mAB)))
  }

  /** Once the slopes are defined, only the zero offset gives a leg the slope of AB. */
  lemma LegsNotParallelToSideOrZero(a: Vec2, b: Vec2, ch: Choice)
    requires SlopesDefined(a, b, ch)
    ensures var mA := LegSlopeA(ch.off);
      ch.off != Zero ==> mA != Slope(Sub(b, a)) && LegSlopeB(mA) != Slope(Sub(b, a))
  {
    if ch.off != Zero {
      LegsNotParallelToSide(ch.off, Sub(b, a));
    }
  }

  /** D, where leg AD meets the parallel, is on both lines of the frame-free description. */
  lemma MeetFitsD(a: Vec2, b: Vec2, ch: Choice)
    requires a.x != b.x && LegSlopesDefined(ch.off) && LegSlopeA(ch.off) != Slope(Sub(b, a))
    ensures var r := Meet(a, LegSlopeA(ch.off), ch.p, Slope(Sub(b, a)));
      Parallel(Sub(r, a), Turn45(ch.off)) && Parallel(Sub(r, ch.p), Sub(b, a))
  {
    var u := Sub(b, a);
    var mA, mAB := LegSlopeA(ch.off), Slope(u);
    var r := Meet(a, mA, ch.p, mAB);
    OnSlopeLine(ch.p, mAB, u, r);
    if ch.off.x != 0.0 {
      OnSlopeLine(a, mA, Turn45(ch.off), r);
    } else {
      assert Turn45(ch.off) == Zero;
      ParallelToZero(Sub(r, a));
    }
  }

  /** C, where leg BC meets the parallel, is on both lines of the frame-free description. */
  lemma MeetFitsC(a: Vec2, b: Vec2, ch: Choice)
    requires a.x != b.x && LegSlopesDefined(ch.off) && LegSlopeB(LegSlopeA(ch.off)) != Slope(Sub(b, a))
    ensures var r := Meet(b, LegSlopeB(LegSlopeA(ch.off)), ch.p, Slope(Sub(b, a)));
      Parallel(Sub(r, b), Perp(Turn45(ch.off))) && Parallel(Sub(r, ch.p), Sub(b, a))
  {
    var u := Sub(b, a);
    var mAB := Slope(u);
    var mB := LegSlopeB(LegSlopeA(ch.off));
    var r := Meet(b, mB, ch.p, mAB);
    OnSlopeLine(ch.p, mAB, u, r);
    if ch.off.x != 0.0 {
      LegSlopeBTurns(ch.off);
      OnSlopeLine(b, mB, Perp(Turn45(ch.off)), r);
    } else {
      assert Perp(Turn45(ch.off)) == Zero;
      ParallelToZero(Sub(r, b));
    }
  }

  /** The slope of leg BC is the slope of the offset direction turned by 135 degrees. */
  lemma LegSlopeBTurns(d: Vec2)
    requires d.x != 0.0 && LegSlopesDefined(d)
    ensures Perp(Turn45(d)).x != 0.0 && LegSlopeB(LegSlopeA(d)) == Slope(Perp(Turn45(d)))
  {
    var T := Turn45(d);
    var mA := LegSlopeA(d);
    var mB := LegSlopeB(mA);
    PerpSlope(T, mA);
    var sP := Slope(Perp(T));
    assert (sP - mB) * mA == 0.0;
    ProductZero(sP - mB, mA);
  }

  /** A point reached from q along a non-vertical u is on the line through q with slope Slope(u). */
  lemma AlongSlopeLine(q: Vec2, u: Vec2, r: Vec2)
    requires u.x != 0.0 && Parallel(Sub(r, q), u)
    ensures r.y - q.y == Slope(u) * (r.x - q.x)
  {
    var m := Slope(u);
    assert ((r.y - q.y) - m * (r.x - q.x)) * u.x == (r.y - q.y) * u.x - (r.x - q.x) * u.y;
    ProductZero((r.y - q.y) - m * (r.x - q.x), u.x);
  }

  /**
   * With the zero offset the chosen point is on line AB, so the parallel is
   * AB itself: the leg through A meets it in A and the leg through B in B.
   */
  lemma ZeroOffsetCorners(a: Vec2, b: Vec2, ch: Choice)
    requires SlopesDefined(a, b, ch)
    requires LegSlopeA(ch.off) != Slope(Sub(b, a)) && LegSlopeB(LegSlopeA(ch.off)) != Slope(Sub(b, a))
    ensures ch.off == Zero ==> Meet(a, LegSlopeA(ch.off), ch.p, Slope(Sub(b, a))) == a
    ensures ch.off == Zero ==> Meet(b, LegSlopeB(LegSlopeA(ch.off)), ch.p, Slope(Sub(b, a))) == b
  {
    if ch.off == Zero {
      var u := Sub(b, a);
      var mA, mAB := LegSlopeA(ch.off), Slope(u);
      assert Sub(Sub(ch.p, a), Zero) == Sub(ch.p, a);
      assert Cross(Sub(a, ch.p), u) == -Cross(Sub(ch.p, a), u);
      AlongSlopeLine(ch.p, u, a);
      MeetUnique(a, mA, ch.p, mAB, a);
      assert Cross(Sub(b, ch.p), u) == Cross(u, u) - Cross(Sub(ch.p, a), u);
      AlongSlopeLine(ch.p, u, b);
      MeetUnique(b, LegSlopeB(mA), ch.p, mAB, b);
    }
  }

  /** The legs along the offset turned by 45 degrees, and orthogonal to it, are not degenerate. */
  lemma LegDirectionsNonZero(d: Vec2)
    requires d != Zero
    ensures Turn45(d) != Zero && Perp(Turn45(d)) != Zero
  {
  }

  /** The frame-free description has at most one solution. */
  lemma FitsUnique(a: Vec2, b: Vec2, ch: Choice, k1: Corners, k2: Corners)
    requires a != b && ch.off != Zero && Orthogonal(ch.off, Sub(b, a))
    requires Fits(a, b, ch, k1) && Fits(a, b, ch, k2)
    ensures k1 == k2
  {
    var u := Sub(b, a);
    var T := Turn45(ch.off);
    assert u != Zero;
    LegsCrossSide(ch.off, u);
    var zd := Sub(k1.d, k2.d);
    assert zd == Sub(Sub(k1.d, a), Sub(k2.d, a)) == Sub(Sub(k1.d, ch.p), Sub(k2.d, ch.p));
    SubLeft(Sub(k1.d, a), Sub(k2.d, a), T);
    SubLeft(Sub(k1.d, ch.p), Sub(k2.d, ch.p), u);
    ParallelToCrossing(zd, T, u);
    var zc := Sub(k1.c, k2.c);
    assert zc == Sub(Sub(k1.c, b), Sub(k2.c, b)) == Sub(Sub(k1.c, ch.p), Sub(k2.c, ch.p));
    SubLeft(Sub(k1.c, b), Sub(k2.c, b), Perp(T));
    SubLeft(Sub(k1.c, ch.p), Sub(k2.c, ch.p), u);
    ParallelToCrossing(zc, Perp(T), u);
  }

  /** In any solution the legs AD and BC are orthogonal. */
  lemma LegsOrthogonal(a: Vec2, b: Vec2, ch: Choice, k: Corners)
    requires ch.off != Zero && Fits(a, b, ch, k)
    ensures Orthogonal(Sub(k.d, a), Sub(k.c, b))
  {
    var T := Turn45(ch.off);
    LegDirectionsNonZero(ch.off);
    ParallelKeepsAngle(T, Sub(k.c, b), Perp(T), 0.0);
    ParallelKeepsAngle(Sub(k.c, b), Sub(k.d, a), T, 0.0);
  }

  /** In any solution the far side CD is parallel to AB. */
  lemma FarSideParallel(a: Vec2, b: Vec2, ch: Choice, k: Corners)
    requires Fits(a, b, ch, k)
    ensures Parallel(Sub(k.c, k.d), Sub(b, a))
  {
    var u := Sub(b, a);
    assert Cross(Sub(k.c, k.d), u) == Cross(Sub(k.c, ch.p), u) - Cross(Sub(k.d, ch.p), u);
  }

  /**
   * In any solution the signed angle from AB to AD is 135 or -45 degrees:
   * its cosine is minus its sine.
   */
  lemma AngleAtA(a: Vec2, b: Vec2, ch: Choice, k: Corners)
    requires ch.off != Zero && Orthogonal(ch.off, Sub(b, a)) && Fits(a, b, ch, k)
    ensures Dot(Sub(b, a), Sub(k.d, a)) == -Cross(Sub(b, a), Sub(k.d, a))
  {
    LegDirectionsNonZero(ch.off);
    TurnAgainstSide(ch.off, Sub(b, a));
    ParallelKeepsAngle(Sub(b, a), Sub(k.d, a), Turn45(ch.off), -1.0);
  }

  /**
   * Against a side orthogonal to the offset d, the leg directions make
   * angles whose cosine is minus the sine (AD) and equal to the sine (BC).
   */
  lemma TurnAgainstSide(d: Vec2, u: Vec2)
    requires Orthogonal(d, u)
    ensures Dot(u, Turn45(d)) == -Cross(u, Turn45(d))
    ensures Dot(u, Perp(Turn45(d))) == Cross(u, Perp(Turn45(d)))
  {
  }

  /**
   * In any solution the signed angle from BA to BC is 45 or -135 degrees:
   * its cosine equals its sine.
   */
  lemma AngleAtB(a: Vec2, b: Vec2, ch: Choice, k: Corners)
    requires ch.off != Zero && Orthogonal(ch.off, Sub(b, a)) && Fits(a, b, ch, k)
    ensures Dot(Sub(a, b), Sub(k.c, b)) == Cross(Sub(a, b), Sub(k.c, b))
  {
    LegDirectionsNonZero(ch.off);
    TurnAgainstSide(ch.off, Sub(a, b));
    ParallelKeepsAngle(Sub(a, b), Sub(k.c, b), Perp(Turn45(ch.off)), 1.0);
  }

  /**
   * The shape the construction promises for ABCD: orthogonal legs, a far
   * side CD parallel to AB, a signed angle from AB to AD of 135 or -45
   * degrees and a signed angle from BA to BC of 45 or -135 degrees.
   */
  predicate TrapeziumShape(a: Vec2, b: Vec2, k: Corners) {
    && Orthogonal(Sub(k.d, a), Sub(k.c, b))
    && Parallel(Sub(k.c, k.d), Sub(b, a))
    && Dot(Sub(b, a), Sub(k.d, a)) == -Cross(Sub(b, a), Sub(k.d, a))
    && Dot(Sub(a, b), Sub(k.c, b)) == Cross(Sub(a, b), Sub(k.c, b))
  }

  /**
   * Every solution of the description has the promised shape; with the
   * zero offset it collapses to D = A and C = B, where the shape holds
   * trivially.
   */
  lemma FitsShape(a: Vec2, b: Vec2, ch: Choice, k: Corners)
    requires Orthogonal(ch.off, Sub(b, a)) && Fits(a, b, ch, k)
    requires ch.off == Zero ==> k == Corners(b, a)
    ensures TrapeziumShape(a, b, k)
  {
    FarSideParallel(a, b, ch, k);
    if ch.off != Zero {
      LegsOrthogonal(a, b, ch, k);
      AngleAtA(a, b, ch, k);
      AngleAtB(a, b, ch, k);
    } else {
      CollapsedShape(a, b);
    }
  }

  /** The collapsed quadrilateral with D = A and C = B has the shape trivially: its legs are zero. */
  lemma CollapsedShape(a: Vec2, b: Vec2)
    ensures TrapeziumShape(a, b, Corners(b, a))
  {
    assert Sub(a, a) == Zero && Sub(b, b) == Zero;
  }
}
