/** Three-component vectors over the reals, and the handful of scalar
    helpers (square root, `x % 1.0`, `int(x)`) the geometric core is built
    from. Vectors are immutable values with named components. */
module Vectors {

  datatype Vec3 = Vec3(x: real, y: real, z: real)

  const Zero: Vec3 := Vec3(0.0, 0.0, 0.0)

  function Add(a: Vec3, b: Vec3): Vec3 {
    Vec3(a.x + b.x, a.y + b.y, a.z + b.z)
  }

  function Sub(a: Vec3, b: Vec3): Vec3 {
    Vec3(a.x - b.x, a.y - b.y, a.z - b.z)
  }

  function Neg(a: Vec3): Vec3 {
    Vec3(-a.x, -a.y, -a.z)
  }

  /** Multiplication of every component by the scalar `c`. */
  function Scale(c: real, a: Vec3): Vec3 {
    Vec3(c * a.x, c * a.y, c * a.z)
  }

  /** Division of every component by the scalar `c` (an array divided by a float). */
  function Div(a: Vec3, c: real): Vec3
    requires c != 0.0
  {
    Vec3(a.x / c, a.y / c, a.z / c)
  }

  /** Adds the scalar `c` to every component (an array plus a float). */
  function AddScalar(a: Vec3, c: real): Vec3 {
    Vec3(a.x + c, a.y + c, a.z + c)
  }

  /** Subtracts the scalar `c` from every component (an array minus a float). */
  function SubScalar(a: Vec3, c: real): Vec3 {
    Vec3(a.x - c, a.y - c, a.z - c)
  }

  function Dot(a: Vec3, b: Vec3): real {
    a.x * b.x + a.y * b.y + a.z * b.z
  }

  /** The 3-D cross product (`np.cross`). */
  function Cross(a: Vec3, b: Vec3): Vec3 {
    Vec3(a.y * b.z - a.z * b.y, a.z * b.x - a.x * b.z, a.x * b.y - a.y * b.x)
  }

  /** The cross product is perpendicular to both of its arguments. */
  lemma CrossPerpendicular(a: Vec3, b: Vec3)
    ensures Dot(Cross(a, b), a) == 0.0 && Dot(Cross(a, b), b) == 0.0
  {
  }

  lemma DotSymmetric(a: Vec3, b: Vec3)
    ensures Dot(a, b) == Dot(b, a)
  {
  }

  /** `sqrt` is a square root on the non-negative reals. The model has no
      square root of its own, so every norm is taken through such a function. */
  ghost predicate IsSqrt(sqrt: real -> real) {
    forall x: real {:trigger SqrtAt(sqrt, x)} :: 0.0 <= x ==> 0.0 <= SqrtAt(sqrt, x) && Sq(SqrtAt(sqrt, x)) == x
  }

  /** `sqrt(x)`, named so that the facts `IsSqrt` gives are only drawn where
      a proof asks for them. */
  ghost function SqrtAt(sqrt: real -> real, x: real): real {
    sqrt(x)
  }

  /** The Euclidean length of `v`. */
  function Norm(sqrt: real -> real, v: Vec3): (r: real)
    requires IsSqrt(sqrt)
    ensures 0.0 <= r && Sq(r) == Dot(v, v)
    ensures r == 0.0 <==> v == Zero
  {
    DotSelf(v);
    var r := sqrt(Dot(v, v));
    assert r == SqrtAt(sqrt, Dot(v, v));
    SqZero(r);
    r
  }

  /** `t % 1.0` with a positive divisor: the fractional part, in [0, 1),
      differing from `t` by a whole number. */
  function Frac(t: real): (r: real)
    ensures 0.0 <= r < 1.0
    ensures (t - r).Floor as real == t - r
  {
    t - t.Floor as real
  }

  lemma FracShift(t: real)
    ensures Frac(t + 1.0) == Frac(t)
  {
    assert (t + 1.0).Floor == t.Floor + 1;
  }

  /** A value already in [0, 1) is its own fractional part. */
  lemma FracSmall(x: real)
    requires 0.0 <= x < 1.0
    ensures Frac(x) == x
  {
  }

  lemma FracIdempotent(t: real)
    ensures Frac(Frac(t)) == Frac(t)
  {
    assert Frac(t).Floor == 0;
  }

  /** `int(x)`: truncation toward zero. */
  function Trunc(x: real): (r: int)
    ensures 0.0 <= x ==> r as real <= x < r as real + 1.0
    ensures x < 0.0 ==> r as real - 1.0 < x <= r as real
  {
    if 0.0 <= x then x.Floor else -((-x).Floor)
  }

  /** Reducing before adding gives the same fractional part:
      `(t % 1.0 + d) % 1.0 == (t + d) % 1.0`. */
  lemma FracAdd(t: real, d: real)
    ensures Frac(Frac(t) + d) == Frac(t + d)
  {
    var n := t.Floor;
    assert Frac(t) + d == (t + d) - n as real;
    assert ((t + d) - n as real).Floor == (t + d).Floor - n;
  }

  /** Python's `min` on two numbers. */
  function MinReal(a: real, b: real): (r: real)
    ensures r <= a && r <= b && (r == a || r == b)
  {
    if a <= b then a else b
  }

  /** Python's `max` on two numbers. */
  function MaxReal(a: real, b: real): (r: real)
    ensures a <= r && b <= r && (r == a || r == b)
  {
    if a >= b then a else b
  }

  /** The square of `a`, and a product, kept behind functions so that facts
      about their signs are stated about single terms. */
  ghost function Sq(a: real): real {
    a * a
  }

  ghost function Mul(a: real, b: real): real {
    a * b
  }

  lemma MulPos(a: real, b: real)
    requires 0.0 < a && 0.0 < b
    ensures 0.0 < Mul(a, b)
  {
  }

  lemma SqNonneg(a: real)
    ensures 0.0 <= Sq(a)
  {
  }

  lemma SqPos(a: real)
    requires a != 0.0
    ensures 0.0 < Sq(a)
  {
    if 0.0 < a {
      MulPos(a, a);
    } else {
      MulPos(-a, -a);
      assert Mul(-a, -a) == Sq(a);
    }
  }

  lemma SqZero(a: real)
    ensures Sq(a) == 0.0 <==> a == 0.0
  {
    if a != 0.0 {
      SqPos(a);
    }
  }

  lemma DotSelf(v: Vec3)
    ensures 0.0 <= Dot(v, v)
    ensures v != Zero ==> 0.0 < Dot(v, v)
  {
    assert Dot(v, v) == Sq(v.x) + Sq(v.y) + Sq(v.z);
    SqNonneg(v.x);
    SqNonneg(v.y);
    SqNonneg(v.z);
    if v.x != 0.0 {
      SqPos(v.x);
    } else if v.y != 0.0 {
      SqPos(v.y);
    } else if v.z != 0.0 {
      SqPos(v.z);
    }
  }

  /** A non-negative number is the only non-negative square root of its square. */
  lemma SqrtUnique(s: real, c: real)
    requires 0.0 <= s && 0.0 <= c && Sq(s) == Sq(c)
    ensures s == c
  {
    DiffOfSquares(c, s);
    if s != c {
      MulNonzero(c - s, c + s);
      assert false;
    }
  }

  lemma DiffOfSquares(c: real, s: real)
    ensures Mul(c - s, c + s) == Sq(c) - Sq(s)
  {
  }

  /** A product of two non-zero reals is non-zero. */
  lemma MulNonzero(a: real, b: real)
    requires a != 0.0 && b != 0.0
    ensures Mul(a, b) != 0.0
  {
    if 0.0 < a && 0.0 < b {
      MulPos(a, b);
    } else if 0.0 < a {
      MulPos(a, -b);
      assert Mul(a, -b) == -Mul(a, b);
    } else if 0.0 < b {
      MulPos(-a, b);
      assert Mul(-a, b) == -Mul(a, b);
    } else {
      MulPos(-a, -b);
      assert Mul(-a, -b) == Mul(a, b);
    }
  }

  lemma SqrtOfOne(sqrt: real -> real)
    requires IsSqrt(sqrt)
    ensures sqrt(1.0) == 1.0
  {
    assert sqrt(1.0) == SqrtAt(sqrt, 1.0);
    SqrtUnique(sqrt(1.0), 1.0);
  }

  /** Swapping the arguments of the cross product negates it. */
  lemma CrossAnticommutes(a: Vec3, b: Vec3)
    ensures Cross(a, b) == Neg(Cross(b, a))
  {
  }

  /** Lagrange's identity: |a x b|^2 = |a|^2 |b|^2 - (a . b)^2. */
  lemma Lagrange(a: Vec3, b: Vec3)
    ensures Dot(Cross(a, b), Cross(a, b)) == Dot(a, a) * Dot(b, b) - Dot(a, b) * Dot(a, b)
  {
    var c := Cross(a, b);
    LagrangeScalar(a.x, a.y, a.z, b.x, b.y, b.z, Dot(c, c), Dot(a, a), Dot(b, b), Dot(a, b));
  }

  lemma LagrangeScalar(a1: real, a2: real, a3: real, b1: real, b2: real, b3: real,
                       cc: real, aa: real, bb: real, ab: real)
    requires cc == (a2 * b3 - a3 * b2) * (a2 * b3 - a3 * b2) + (a3 * b1 - a1 * b3) * (a3 * b1 - a1 * b3)
                   + (a1 * b2 - a2 * b1) * (a1 * b2 - a2 * b1)
    requires aa == a1 * a1 + a2 * a2 + a3 * a3 && bb == b1 * b1 + b2 * b2 + b3 * b3
    requires ab == a1 * b1 + a2 * b2 + a3 * b3
    ensures cc == aa * bb - ab * ab
  {
  }

  /** The vector triple product: (a x b) x c = b (a . c) - a (b . c). */
  lemma TripleProduct(a: Vec3, b: Vec3, c: Vec3)
    ensures Cross(Cross(a, b), c) == Sub(Scale(Dot(a, c), b), Scale(Dot(b, c), a))
  {
    var l, r := Cross(Cross(a, b), c), Sub(Scale(Dot(a, c), b), Scale(Dot(b, c), a));
    TripleX(a, b, c, l.x, r.x);
    TripleY(a, b, c, l.y, r.y);
    TripleZ(a, b, c, l.z, r.z);
    assert l == Vec3(l.x, l.y, l.z) && r == Vec3(r.x, r.y, r.z);
  }

  lemma TripleX(a: Vec3, b: Vec3, c: Vec3, l: real, r: real)
    requires l == Cross(Cross(a, b), c).x && r == Dot(a, c) * b.x - Dot(b, c) * a.x
    ensures l == r
  {
  }

  lemma TripleY(a: Vec3, b: Vec3, c: Vec3, l: real, r: real)
    requires l == Cross(Cross(a, b), c).y && r == Dot(a, c) * b.y - Dot(b, c) * a.y
    ensures l == r
  {
  }

  lemma TripleZ(a: Vec3, b: Vec3, c: Vec3, l: real, r: real)
    requires l == Cross(Cross(a, b), c).z && r == Dot(a, c) * b.z - Dot(b, c) * a.z
    ensures l == r
  {
  }

  lemma DotScale(c: real, a: Vec3, b: Vec3)
    ensures Dot(Scale(c, a), b) == c * Dot(a, b)
    ensures Dot(a, Scale(c, b)) == c * Dot(a, b)
  {
  }

  lemma DivIsScale(a: Vec3, c: real)
    requires c != 0.0
    ensures Div(a, c) == Scale(1.0 / c, a)
  {
  }

  /** Dividing a non-zero vector by its length gives a unit vector pointing
      the same way: parallel to `v`, with a positive projection on it. */
  lemma UnitDirection(sqrt: real -> real, v: Vec3)
    requires IsSqrt(sqrt) && v != Zero
    ensures Norm(sqrt, v) != 0.0
    ensures var u := Div(v, Norm(sqrt, v));
      Dot(u, u) == 1.0 && Cross(u, v) == Zero && Dot(u, v) == Norm(sqrt, v)
  {
    var n := Norm(sqrt, v);
    DivIsScale(v, n);
    ScaledDirection(1.0 / n, n, v, Scale(1.0 / n, v));
  }

  /** `u = v / |v|`, written as a multiple of `v`, has the three properties
      of a direction. */
  lemma ScaledDirection(c: real, n: real, v: Vec3, u: Vec3)
    requires n != 0.0 && c == 1.0 / n && Dot(v, v) == Sq(n) && u == Scale(c, v)
    ensures Dot(u, u) == 1.0 && Cross(u, v) == Zero && Dot(u, v) == n
  {
    var d := Dot(v, v);
    UnitScalar(c, n, d);
    ScaledProjection(c, v, u, d, Dot(u, v), Dot(u, u));
    ScaledParallel(c, v, u, Cross(u, v));
  }

  lemma ScaledProjection(c: real, v: Vec3, u: Vec3, d: real, uv: real, uu: real)
    requires u == Scale(c, v) && d == Dot(v, v) && uv == Dot(u, v) && uu == Dot(u, u)
    ensures uv == c * d && uu == c * (c * d)
  {
    DotScale(c, v, v);
    DotScale(c, v, u);
    DotSymmetric(v, u);
  }

  lemma ScaledParallel(c: real, v: Vec3, u: Vec3, w: Vec3)
    requires u == Scale(c, v) && w == Cross(u, v)
    ensures w == Zero
  {
    ParallelScalar(c, v.y, v.z, u.y, u.z, w.x);
    ParallelScalar(c, v.z, v.x, u.z, u.x, w.y);
    ParallelScalar(c, v.x, v.y, u.x, u.y, w.z);
    assert w == Vec3(w.x, w.y, w.z);
  }

  lemma ParallelScalar(c: real, p: real, q: real, cp: real, cq: real, l: real)
    requires cp == c * p && cq == c * q && l == cp * q - cq * p
    ensures l == 0.0
  {
  }

  lemma UnitScalar(c: real, n: real, d: real)
    requires n != 0.0 && c == 1.0 / n && d == Sq(n)
    ensures c * (c * d) == 1.0 && c * d == n
  {
    assert c * n == 1.0;
    assert c * (c * d) == (c * n) * (c * n);
  }

  /** A vector of unit length is its own direction. */
  lemma UnitIsOwnDirection(sqrt: real -> real, u: Vec3)
    requires IsSqrt(sqrt) && Dot(u, u) == 1.0
    ensures Norm(sqrt, u) == 1.0
  {
    SqrtOfOne(sqrt);
  }

  /** Scaling either argument of the cross product scales the product. */
  lemma CrossScale(a: real, u: Vec3, b: real, v: Vec3)
    ensures Cross(Scale(a, u), Scale(b, v)) == Scale(a * b, Cross(u, v))
  {
    var p, q := Cross(Scale(a, u), Scale(b, v)), Scale(a * b, Cross(u, v));
    CrossScaleX(a, u, b, v, p.x, q.x);
    CrossScaleY(a, u, b, v, p.y, q.y);
    CrossScaleZ(a, u, b, v, p.z, q.z);
    assert p == Vec3(p.x, p.y, p.z) && q == Vec3(q.x, q.y, q.z);
  }

  lemma CrossScaleX(a: real, u: Vec3, b: real, v: Vec3, l: real, r: real)
    requires l == Cross(Scale(a, u), Scale(b, v)).x && r == (a * b) * Cross(u, v).x
    ensures l == r
  {
  }

  lemma CrossScaleY(a: real, u: Vec3, b: real, v: Vec3, l: real, r: real)
    requires l == Cross(Scale(a, u), Scale(b, v)).y && r == (a * b) * Cross(u, v).y
    ensures l == r
  {
  }

  lemma CrossScaleZ(a: real, u: Vec3, b: real, v: Vec3, l: real, r: real)
    requires l == Cross(Scale(a, u), Scale(b, v)).z && r == (a * b) * Cross(u, v).z
    ensures l == r
  {
  }

  /** A non-zero multiple of a vector is zero exactly when the vector is. */
  lemma ScaleZeroIff(k: real, v: Vec3)
    requires k != 0.0
    ensures Scale(k, v) == Zero <==> v == Zero
  {
    if v.x != 0.0 {
      MulNonzero(k, v.x);
    } else if v.y != 0.0 {
      MulNonzero(k, v.y);
    } else if v.z != 0.0 {
      MulNonzero(k, v.z);
    }
  }

  /** The cross product is unchanged by subtracting the first argument from the second. */
  lemma CrossSubSelf(a: Vec3, b: Vec3)
    ensures Cross(a, Sub(b, a)) == Cross(a, b)
  {
  }

  lemma CubePos(s: real)
    requires 0.0 < s
    ensures 0.0 < s * s * s
  {
    MulPos(s, s);
    MulPos(s * s, s);
  }

  /** A non-negative number over a positive one is non-negative, and zero
      exactly when the numerator is. */
  lemma QuotientSign(x: real, y: real)
    requires 0.0 <= x && 0.0 < y
    ensures 0.0 <= x / y
    ensures x / y == 0.0 <==> x == 0.0
  {
    if x != 0.0 {
      MulPos(x, 1.0 / y);
    }
  }

  /** The dot product is linear in its first argument. */
  lemma DotCombination(a: real, u: Vec3, b: real, w: Vec3, x: Vec3)
    ensures Dot(Add(Scale(a, u), Scale(b, w)), x) == a * Dot(u, x) + b * Dot(w, x)
  {
    var ux, wx := Dot(u, x), Dot(w, x);
    DotCombinationScalar(a, b, u.x, u.y, u.z, w.x, w.y, w.z, x.x, x.y, x.z, ux, wx, Dot(Add(Scale(a, u), Scale(b, w)), x));
  }

  lemma DotCombinationScalar(a: real, b: real, u1: real, u2: real, u3: real, w1: real, w2: real, w3: real,
                             x1: real, x2: real, x3: real, ux: real, wx: real, lhs: real)
    requires ux == u1 * x1 + u2 * x2 + u3 * x3 && wx == w1 * x1 + w2 * x2 + w3 * x3
    requires lhs == (a * u1 + b * w1) * x1 + (a * u2 + b * w2) * x2 + (a * u3 + b * w3) * x3
    ensures lhs == a * ux + b * wx
  {
  }
}
