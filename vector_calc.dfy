/**
 * Plane vector algebra of the billiards engine (helpers/VectorCalc.java).
 *
 * Every Java method builds a fresh double[2] or a scalar from its inputs and
 * never writes to them, so vectors are values here. `double` is `real`.
 * The only library call, Math.sqrt, is a parameter `sqrt`; the lemmas that
 * need it to be a square root say so with `IsSqrt(sqrt)`.
 */
module VectorCalc {

  /** A two-component vector (a double[2] in the Java code). */
  datatype Vector = Vector(x: real, y: real)

  const Zero := Vector(0.0, 0.0)

  /** `sqrt` is a square root on the non-negative reals, as Math.sqrt is. */
  ghost predicate IsSqrt(sqrt: real -> real) {
    forall a: real :: 0.0 <= a ==> 0.0 <= sqrt(a) && sqrt(a) * sqrt(a) == a
  }

  function Subtract(v1: Vector, v2: Vector): Vector {
    Vector(v1.x - v2.x, v1.y - v2.y)
  }

  function Multiply(scalar: real, v: Vector): Vector {
    Vector(v.x * scalar, v.y * scalar)
  }

  /** The length of `v` as normalizeVector computes it: the root of v.x*v.x + v.y*v.y. */
  function Magnitude(v: Vector, sqrt: real -> real): real {
    sqrt(Dot(v, v))
  }

  /** normalizeVector divides by the magnitude, which must not be zero. */
  function Normalize(v: Vector, sqrt: real -> real): Vector
    requires Magnitude(v, sqrt) != 0.0
  {
    var m := Magnitude(v, sqrt);
    Vector(v.x / m, v.y / m)
  }

  /** Mirror reflection of `d` across the surface normal `n`. */
  function Reflect(d: Vector, n: Vector): Vector {
    Subtract(d, Multiply(2.0 * Dot(d, n), n))
  }

  function Dot(v1: Vector, v2: Vector): real {
    v1.x * v2.x + v1.y * v2.y
  }

  /** The scalar (z-component) cross product. */
  function Cross(v1: Vector, v2: Vector): real {
    v1.x * v2.y - v1.y * v2.x
  }

  /** The sum of squared coordinate differences, the radicand of distanceBetweenPoints. */
  function SquaredDistance(p1: Vector, p2: Vector): real {
    (p2.x - p1.x) * (p2.x - p1.x) + (p2.y - p1.y) * (p2.y - p1.y)
  }

  function Distance(p1: Vector, p2: Vector, sqrt: real -> real): real {
    sqrt(SquaredDistance(p1, p2))
  }

  // ---------------------------------------------------------------------
  // Facts about the square root

  lemma SquareNonnegative(a: real)
    ensures a * a >= 0.0
  {
    if a < 0.0 {
      assert a * a == (-a) * (-a);
    }
  }

  lemma SumOfSquares(a: real, b: real)
    ensures a * a + b * b >= 0.0
    ensures a != 0.0 || b != 0.0 ==> a * a + b * b > 0.0
  {
    SquareNonnegative(a);
    SquareNonnegative(b);
    if a < 0.0 {
      assert a * a == (-a) * (-a);
    }
    if b < 0.0 {
      assert b * b == (-b) * (-b);
    }
  }

  /** A non-negative number whose square is `a` is the root of `a`. */
  lemma SqrtUnique(sqrt: real -> real, a: real, s: real)
    requires IsSqrt(sqrt)
    requires 0.0 <= s && s * s == a
    ensures sqrt(a) == s
  {
    var r := sqrt(a);
    assert 0.0 <= r && r * r == a;
    assert (r - s) * (r + s) == 0.0;
    if r + s != 0.0 {
      assert r - s == ((r - s) * (r + s)) / (r + s);
    }
  }

  lemma SqrtZero(sqrt: real -> real)
    requires IsSqrt(sqrt)
    ensures sqrt(0.0) == 0.0
  {
    SqrtUnique(sqrt, 0.0, 0.0);
  }

  lemma SqrtPositive(sqrt: real -> real, a: real)
    requires IsSqrt(sqrt)
    requires 0.0 < a
    ensures 0.0 < sqrt(a)
  {
    assert sqrt(a) * sqrt(a) == a;
  }

  lemma ProductSign(p: real, q: real)
    requires 0.0 < q
    ensures p < 0.0 ==> p * q < 0.0
    ensures p > 0.0 ==> p * q > 0.0
  {
  }

  /** Comparing a root with a non-negative bound is comparing squares. */
  lemma SqrtBelow(sqrt: real -> real, a: real, bound: real)
    requires IsSqrt(sqrt)
    requires 0.0 <= a && 0.0 <= bound
    ensures sqrt(a) < bound <==> a < bound * bound
    ensures sqrt(a) <= bound <==> a <= bound * bound
  {
    var r := sqrt(a);
    assert 0.0 <= r && r * r == a;
    var gap := (r - bound) * (r + bound);
    assert a == bound * bound + gap;
    if r < bound {
      ProductSign(r - bound, r + bound);
      assert gap < 0.0;
    } else if r == bound {
      assert gap == 0.0;
    } else {
      ProductSign(r - bound, r + bound);
      assert gap > 0.0;
    }
  }

  // ---------------------------------------------------------------------
  // Dot and cross products

  lemma DotSymmetric(v1: Vector, v2: Vector)
    ensures Dot(v1, v2) == Dot(v2, v1)
  {
  }

  /** The squared length is non-negative. */
  lemma DotSelfNonnegative(v: Vector)
    ensures Dot(v, v) >= 0.0
  {
    calc {
      Dot(v, v);
      ==
      v.x * v.x + v.y * v.y;
      >= { SumOfSquares(v.x, v.y); }
      0.0;
    }
  }

  /** The squared length of a non-zero vector is positive. */
  lemma DotSelfPositive(v: Vector)
    requires v != Zero
    ensures Dot(v, v) > 0.0
  {
    calc {
      Dot(v, v);
      ==
      v.x * v.x + v.y * v.y;
      > { SumOfSquares(v.x, v.y); }
      0.0;
    }
  }

  lemma CrossAntisymmetric(v1: Vector, v2: Vector)
    ensures Cross(v1, v2) == -Cross(v2, v1)
  {
  }

  lemma CrossSelfZero(v: Vector)
    ensures Cross(v, v) == 0.0
  {
  }

  // ---------------------------------------------------------------------
  // Subtraction and scaling

  lemma SubtractComponents(v1: Vector, v2: Vector)
    ensures Subtract(v1, v2).x == v1.x - v2.x && Subtract(v1, v2).y == v1.y - v2.y
    ensures Subtract(v1, v1) == Zero
    ensures Subtract(v1, v2) == Multiply(-1.0, Subtract(v2, v1))
  {
  }

  lemma MultiplyProperties(s: real, v: Vector)
    ensures Multiply(s, v).x == s * v.x && Multiply(s, v).y == s * v.y
    ensures Multiply(1.0, v) == v
    ensures Multiply(0.0, v) == Zero
  {
  }

  // ---------------------------------------------------------------------
  // Normalisation

  /** normalizeVector can divide by the magnitude exactly when the vector is not zero. */
  lemma MagnitudeZeroIff(v: Vector, sqrt: real -> real)
    requires IsSqrt(sqrt)
    ensures Magnitude(v, sqrt) >= 0.0
    ensures Magnitude(v, sqrt) == 0.0 <==> v == Zero
  {
    if v == Zero {
      assert Dot(v, v) == 0.0;
      SqrtZero(sqrt);
    } else {
      DotSelfPositive(v);
      SqrtPositive(sqrt, Dot(v, v));
    }
  }

  /** Scaling the normalised vector by the magnitude gives the vector back. */
  lemma NormalizeScalesBack(v: Vector, sqrt: real -> real)
    requires Magnitude(v, sqrt) != 0.0
    ensures Multiply(Magnitude(v, sqrt), Normalize(v, sqrt)) == v
  {
    var m := Magnitude(v, sqrt);
    assert v.x / m * m == v.x;
    assert v.y / m * m == v.y;
  }

  /** normalizeVector of a non-zero vector has length 1. */
  lemma NormalizeIsUnit(v: Vector, sqrt: real -> real)
    requires IsSqrt(sqrt) && v != Zero
    ensures Magnitude(v, sqrt) != 0.0
    ensures Dot(Normalize(v, sqrt), Normalize(v, sqrt)) == 1.0
  {
    MagnitudeZeroIff(v, sqrt);
    DotSelfNonnegative(v);
    var m := Magnitude(v, sqrt);
    var n := Normalize(v, sqrt);
    assert m * m == Dot(v, v);
    assert n.x * m == v.x && n.y * m == v.y;
    calc {
      Dot(n, n) * (m * m);
      == (n.x * m) * (n.x * m) + (n.y * m) * (n.y * m);
      == Dot(v, v);
      == m * m;
    }
    SumOfSquares(m, 0.0);
    assert Dot(n, n) == (Dot(n, n) * (m * m)) / (m * m);
  }

  // ---------------------------------------------------------------------
  // Reflection

  lemma ReflectNegatesNormalPart(d: Vector, n: Vector)
    requires Dot(n, n) == 1.0
    ensures Dot(Reflect(d, n), n) == -Dot(d, n)
  {
    var k := Dot(d, n);
    var r := Reflect(d, n);
    assert r == Vector(d.x - n.x * (2.0 * k), d.y - n.y * (2.0 * k));
    calc {
      Dot(r, n);
      (d.x - n.x * (2.0 * k)) * n.x + (d.y - n.y * (2.0 * k)) * n.y;
      k - 2.0 * k * (n.x * n.x + n.y * n.y);
    }
  }

  lemma ReflectPreservesLength(d: Vector, n: Vector)
    requires Dot(n, n) == 1.0
    ensures Dot(Reflect(d, n), Reflect(d, n)) == Dot(d, d)
  {
    var k := Dot(d, n);
    var r := Reflect(d, n);
    assert r == Vector(d.x - n.x * (2.0 * k), d.y - n.y * (2.0 * k));
    calc {
      Dot(r, r);
      (d.x - n.x * (2.0 * k)) * (d.x - n.x * (2.0 * k)) + (d.y - n.y * (2.0 * k)) * (d.y - n.y * (2.0 * k));
      d.x * d.x + d.y * d.y - 4.0 * k * (d.x * n.x + d.y * n.y) + 4.0 * k * k * (n.x * n.x + n.y * n.y);
      Dot(d, d);
    }
  }

  lemma ReflectTwice(d: Vector, n: Vector)
    requires Dot(n, n) == 1.0
    ensures Reflect(Reflect(d, n), n) == d
  {
    ReflectNegatesNormalPart(d, n);
    var k := Dot(d, n);
    var r := Reflect(d, n);
    assert r == Vector(d.x - n.x * (2.0 * k), d.y - n.y * (2.0 * k));
    assert Dot(r, n) == -k;
    assert Reflect(r, n) == Vector(r.x + n.x * (2.0 * k), r.y + n.y * (2.0 * k));
  }

  /** With the axis-aligned cushion normals, reflection negates exactly one component. */
  lemma ReflectAxisNormals(d: Vector)
    ensures Reflect(d, Vector(1.0, 0.0)) == Vector(-d.x, d.y)
    ensures Reflect(d, Vector(-1.0, 0.0)) == Vector(-d.x, d.y)
    ensures Reflect(d, Vector(0.0, 1.0)) == Vector(d.x, -d.y)
    ensures Reflect(d, Vector(0.0, -1.0)) == Vector(d.x, -d.y)
  {
  }

  // ---------------------------------------------------------------------
  // Distance

  lemma DistanceSymmetric(p: Vector, q: Vector, sqrt: real -> real)
    ensures Distance(p, q, sqrt) == Distance(q, p, sqrt)
  {
    assert SquaredDistance(p, q) == SquaredDistance(q, p);
  }

  lemma DistanceProperties(p: Vector, q: Vector, sqrt: real -> real)
    requires IsSqrt(sqrt)
    ensures Distance(p, p, sqrt) == 0.0
    ensures 0.0 <= Distance(p, q, sqrt)
    ensures Distance(p, q, sqrt) * Distance(p, q, sqrt) == SquaredDistance(p, q)
  {
    SqrtZero(sqrt);
    assert SquaredDistance(p, p) == 0.0;
    SumOfSquares(q.x - p.x, q.y - p.y);
  }

  /** A distance compared with a non-negative bound is the squared distance compared with its square. */
  lemma DistanceBelow(p: Vector, q: Vector, sqrt: real -> real, bound: real)
    requires IsSqrt(sqrt)
    requires 0.0 <= bound
    ensures Distance(p, q, sqrt) < bound <==> SquaredDistance(p, q) < bound * bound
    ensures Distance(p, q, sqrt) <= bound <==> SquaredDistance(p, q) <= bound * bound
  {
    SumOfSquares(q.x - p.x, q.y - p.y);
    SqrtBelow(sqrt, SquaredDistance(p, q), bound);
  }
}
