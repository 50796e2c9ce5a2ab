/**
 * Plane vectors with exact real coordinates: dot and cross products, the
 * projection of one vector onto another, and rotation by an angle given
 * through its cosine and sine.
 */
module Vectors {

  /** A point of the plane, or a displacement between two points. */
  datatype Vec2 = Vec2(x: real, y: real)

  const Zero: Vec2 := Vec2(0.0, 0.0)

  function Add(a: Vec2, b: Vec2): Vec2 { Vec2(a.x + b.x, a.y + b.y) }

  function Sub(a: Vec2, b: Vec2): Vec2 { Vec2(a.x - b.x, a.y - b.y) }

  function Scale(k: real, v: Vec2): Vec2 { Vec2(k * v.x, k * v.y) }

  function Dot(a: Vec2, b: Vec2): real { a.x * b.x + a.y * b.y }

  /** The signed area spanned by a and b; zero exactly when they are parallel. */
  function Cross(a: Vec2, b: Vec2): real { a.x * b.y - a.y * b.x }

  /** v turned counter-clockwise by a right angle. */
  function Perp(v: Vec2): Vec2 { Vec2(-v.y, v.x) }

  /** v turned counter-clockwise by 45 degrees and stretched by the square root of 2. */
  function Turn45(v: Vec2): Vec2 { Add(v, Perp(v)) }

  predicate Parallel(a: Vec2, b: Vec2) { Cross(a, b) == 0.0 }

  predicate Orthogonal(a: Vec2, b: Vec2) { Dot(a, b) == 0.0 }

  /**
   * Rise over run of a direction that is not vertical. Over the reals this
   * is tan(atan2(v.y, v.x)), since the tangent has period pi.
   */
  function Slope(v: Vec2): (m: real)
    requires v.x != 0.0
    ensures m * v.x == v.y
  {
    v.y / v.x
  }

  /** A square is never negative. */
  lemma SquareNonNegative(t: real)
    ensures t * t >= 0.0
  {
  }

  /** A product with a non-zero factor vanishes only when the other factor does. */
  lemma ProductZero(t: real, u: real)
    requires t * u == 0.0 && u != 0.0
    ensures t == 0.0
  {
  }

  /** Only the zero vector has zero squared length. */
  lemma SquaredLengthZero(v: Vec2)
    ensures Dot(v, v) == 0.0 <==> v == Zero
  {
    SquareNonNegative(v.x);
    SquareNonNegative(v.y);
    if Dot(v, v) == 0.0 {
      assert v.x * v.x == 0.0 && v.y * v.y == 0.0;
      if v.x != 0.0 {
        ProductZero(v.x, v.x);
      }
      if v.y != 0.0 {
        ProductZero(v.y, v.y);
      }
    }
  }

  /** Lagrange's identity in the plane: (a.b)^2 + (a x b)^2 == |a|^2 |b|^2. */
  lemma Lagrange(a: Vec2, b: Vec2)
    ensures Dot(a, b) * Dot(a, b) + Cross(a, b) * Cross(a, b) == Dot(a, a) * Dot(b, b)
  {
  }

  /** Every vector is parallel to the zero vector. */
  lemma ParallelToZero(v: Vec2)
    ensures Parallel(v, Zero)
  {
  }

  /** Two non-zero orthogonal vectors are never parallel. */
  lemma OrthogonalNotParallel(a: Vec2, b: Vec2)
    requires a != Zero && b != Zero && Orthogonal(a, b)
    ensures !Parallel(a, b)
  {
    Lagrange(a, b);
    SquaredLengthZero(a);
    SquaredLengthZero(b);
    assert Dot(a, a) > 0.0 && Dot(b, b) > 0.0;
    assert Dot(a, a) * Dot(b, b) > 0.0;
  }

  /** A vector parallel to two crossing directions is the zero vector. */
  lemma ParallelToCrossing(z: Vec2, v: Vec2, w: Vec2)
    requires Cross(v, w) != 0.0
    requires Parallel(z, v) && Parallel(z, w)
    ensures z == Zero
  {
    assert z.x * Cross(v, w) == v.x * (z.x * w.y) - w.x * (z.x * v.y);
    assert z.x * Cross(v, w) == 0.0;
    assert z.y * Cross(v, w) == w.y * (z.y * v.x) - v.y * (z.y * w.x);
    assert z.y * Cross(v, w) == 0.0;
  }

  /** A vector both parallel and orthogonal to a non-zero vector is the zero vector. */
  lemma ParallelAndOrthogonal(z: Vec2, b: Vec2)
    requires b != Zero && Parallel(z, b) && Orthogonal(z, b)
    ensures z == Zero
  {
    if z != Zero {
      OrthogonalNotParallel(z, b);
    }
  }

  /**
   * The component of a along b. It is parallel to b and leaves a residual
   * orthogonal to b; the projection is undefined for b == Zero, where the
   * division by b.b has no value.
   */
  function Project(a: Vec2, b: Vec2): (r: Vec2)
    requires b != Zero
    ensures Parallel(r, b)
    ensures Orthogonal(Sub(a, r), b)
  {
    SquaredLengthZero(b);
    var k := Dot(a, b) / Dot(b, b);
    assert k * Dot(b, b) == Dot(a, b);
    Scale(k, b)
  }

  /** The two properties of Project characterise it: no other vector has both. */
  lemma ProjectUnique(a: Vec2, b: Vec2, p: Vec2)
    requires b != Zero && Parallel(p, b) && Orthogonal(Sub(a, p), b)
    ensures p == Project(a, b)
  {
    var q := Project(a, b);
    assert Dot(Sub(p, q), b) == Dot(Sub(a, q), b) - Dot(Sub(a, p), b);
    ParallelAndOrthogonal(Sub(p, q), b);
  }

  /** A vector parallel to a non-zero v is a multiple of v. */
  lemma ParallelIsMultiple(w: Vec2, v: Vec2)
    requires v != Zero && Parallel(w, v)
    ensures Dot(v, v) != 0.0 && w == Scale(Dot(w, v) / Dot(v, v), v)
  {
    ProjectUnique(w, v, w);
    SquaredLengthZero(v);
  }

  /** Dot and cross products distribute over a difference in their first argument. */
  lemma SubLeft(x: Vec2, y: Vec2, u: Vec2)
    ensures Dot(Sub(x, y), u) == Dot(x, u) - Dot(y, u)
    ensures Cross(Sub(x, y), u) == Cross(x, u) - Cross(y, u)
  {
  }

  /** Dot and cross products are linear in their second argument. */
  lemma ScaleRight(u: Vec2, k: real, v: Vec2)
    ensures Dot(u, Scale(k, v)) == k * Dot(u, v)
    ensures Cross(u, Scale(k, v)) == k * Cross(u, v)
  {
    assert u.x * (k * v.x) + u.y * (k * v.y) == k * (u.x * v.x + u.y * v.y);
    assert u.x * (k * v.y) - u.y * (k * v.x) == k * (u.x * v.y - u.y * v.x);
  }

  /**
   * A multiple of v makes the same angle with u as v does, up to its sign:
   * an equality between cosine and sine, or between cosine and minus sine, carries over.
   */
  lemma ParallelKeepsAngle(u: Vec2, w: Vec2, v: Vec2, sign: real)
    requires v != Zero && Parallel(w, v) && Dot(u, v) == sign * Cross(u, v)
    ensures Dot(u, w) == sign * Cross(u, w)
  {
    ParallelIsMultiple(w, v);
    var k := Dot(w, v) / Dot(v, v);
    ScaleRight(u, k, v);
    assert k * (sign * Cross(u, v)) == sign * (k * Cross(u, v));
  }

  /** A rotation by the angle whose cosine is c and whose sine is s. */
  datatype Rotation = Rotation(c: real, s: real)

  /** The pair (c, s) lies on the unit circle, so it is the cosine and sine of some angle. */
  predicate Unit(g: Rotation) { g.c * g.c + g.s * g.s == 1.0 }

  /** The rotation matrix [[c, -s], [s, c]] applied to v. */
  function Rotate(v: Vec2, g: Rotation): Vec2 {
    Vec2(g.c * v.x - g.s * v.y, g.s * v.x + g.c * v.y)
  }

  /** The rotation by the opposite angle: its cosine is c and its sine is -s. */
  function Inverse(g: Rotation): Rotation { Rotation(g.c, -g.s) }

  /** Rotating by an angle and then by its opposite returns the vector unchanged, either way round. */
  lemma RotateRoundTrip(v: Vec2, g: Rotation)
    requires Unit(g)
    ensures Rotate(Rotate(v, g), Inverse(g)) == v
    ensures Rotate(Rotate(v, Inverse(g)), g) == v
  {
    var c, s := g.c, g.s;
    assert c * (c * v.x - s * v.y) + s * (s * v.x + c * v.y) == (c * c + s * s) * v.x;
    assert -s * (c * v.x - s * v.y) + c * (s * v.x + c * v.y) == (c * c + s * s) * v.y;
    assert c * (c * v.x + s * v.y) - s * (-s * v.x + c * v.y) == (c * c + s * s) * v.x;
    assert s * (c * v.x + s * v.y) + c * (-s * v.x + c * v.y) == (c * c + s * s) * v.y;
  }

  /** A proper rotation preserves dot and cross products, hence lengths, angles and orientation. */
  lemma RotateIsometry(a: Vec2, b: Vec2, g: Rotation)
    requires Unit(g)
    ensures Dot(Rotate(a, g), Rotate(b, g)) == Dot(a, b)
    ensures Cross(Rotate(a, g), Rotate(b, g)) == Cross(a, b)
  {
    RotatedProducts(g.c, g.s, a.x, a.y, b.x, b.y);
  }

  /** The polynomial identities behind RotateIsometry, on the coordinates. */
  lemma RotatedProducts(c: real, s: real, x1: real, y1: real, x2: real, y2: real)
    requires c * c + s * s == 1.0
    ensures (c * x1 - s * y1) * (c * x2 - s * y2) + (s * x1 + c * y1) * (s * x2 + c * y2) == x1 * x2 + y1 * y2
    ensures (c * x1 - s * y1) * (s * x2 + c * y2) - (s * x1 + c * y1) * (c * x2 - s * y2) == x1 * y2 - y1 * x2
  {
    assert (c * x1 - s * y1) * (c * x2 - s * y2) + (s * x1 + c * y1) * (s * x2 + c * y2)
        == (c * c + s * s) * (x1 * x2 + y1 * y2);
    assert (c * x1 - s * y1) * (s * x2 + c * y2) - (s * x1 + c * y1) * (c * x2 - s * y2)
        == (c * c + s * s) * (x1 * y2 - y1 * x2);
  }

  /** A proper rotation sends distinct vectors to distinct vectors. */
  lemma RotateInjective(a: Vec2, b: Vec2, g: Rotation)
    requires Unit(g)
    ensures Rotate(a, g) == Rotate(b, g) <==> a == b
  {
    RotateRoundTrip(a, g);
    RotateRoundTrip(b, g);
  }

  /** Rotation distributes over differences. */
  lemma RotateSub(a: Vec2, b: Vec2, g: Rotation)
    ensures Rotate(Sub(a, b), g) == Sub(Rotate(a, g), Rotate(b, g))
  {
    assert g.c * (a.x - b.x) - g.s * (a.y - b.y) == (g.c * a.x - g.s * a.y) - (g.c * b.x - g.s * b.y);
    assert g.s * (a.x - b.x) + g.c * (a.y - b.y) == (g.s * a.x + g.c * a.y) - (g.s * b.x + g.c * b.y);
  }

  /** Rotation distributes over sums. */
  lemma RotateAdd(a: Vec2, b: Vec2, g: Rotation)
    ensures Rotate(Add(a, b), g) == Add(Rotate(a, g), Rotate(b, g))
  {
    assert g.c * (a.x + b.x) - g.s * (a.y + b.y) == (g.c * a.x - g.s * a.y) + (g.c * b.x - g.s * b.y);
    assert g.s * (a.x + b.x) + g.c * (a.y + b.y) == (g.s * a.x + g.c * a.y) + (g.s * b.x + g.c * b.y);
  }

  /** Rotation commutes with the quarter turn and with the eighth turn. */
  lemma RotateTurns(a: Vec2, g: Rotation)
    ensures Rotate(Perp(a), g) == Perp(Rotate(a, g))
    ensures Rotate(Turn45(a), g) == Turn45(Rotate(a, g))
  {
    RotateAdd(a, Perp(a), g);
  }

  /** Projecting and then rotating is the same as rotating both vectors and then projecting. */
  lemma RotateProject(a: Vec2, b: Vec2, g: Rotation)
    requires Unit(g) && b != Zero
    ensures Rotate(b, g) != Zero
    ensures Rotate(Project(a, b), g) == Project(Rotate(a, g), Rotate(b, g))
  {
    RotateInjective(b, Zero, g);
    var p := Project(a, b);
    RotateIsometry(p, b, g);
    RotateIsometry(Sub(a, p), b, g);
    RotateSub(a, p, g);
    ProjectUnique(Rotate(a, g), Rotate(b, g), Rotate(p, g));
  }
}
