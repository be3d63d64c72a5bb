/** The cart's frame utilities: normalisation with its fallback direction,
    the orientation matrix built from a forward and an up direction, and the
    cart's axis-aligned bounding box. */
module Cart {
  import opened Vectors

  /** The direction `normalize_vector` returns for the zero vector. */
  const FallbackDirection: Vec3 := Vec3(0.0, 0.0, 1.0)

  /** The cart size used when none is given. */
  const DefaultSize: real := 0.3

  /** `normalize_vector`: a unit vector pointing along `v`, or the fallback
      direction when `v` has length zero. */
  function Normalize(sqrt: real -> real, v: Vec3): (r: Vec3)
    requires IsSqrt(sqrt)
    ensures Dot(r, r) == 1.0
    ensures v == Zero ==> r == FallbackDirection
  {
    var n := Norm(sqrt, v);
    if n != 0.0 then
      UnitDirection(sqrt, v);
      Div(v, n)
    else
      FallbackUnit();
      FallbackDirection
  }

  lemma FallbackUnit()
    ensures Dot(FallbackDirection, FallbackDirection) == 1.0
  {
  }

  /** A non-zero vector is normalised to a positive multiple of itself: the
      result is parallel to `v` and its projection on `v` is `v`'s length. */
  lemma NormalizeDirection(sqrt: real -> real, v: Vec3)
    requires IsSqrt(sqrt) && v != Zero
    ensures Cross(Normalize(sqrt, v), v) == Zero
    ensures Dot(Normalize(sqrt, v), v) == Norm(sqrt, v) && 0.0 < Dot(Normalize(sqrt, v), v)
  {
    UnitDirection(sqrt, v);
  }

  /** A unit vector is left as it is. */
  lemma NormalizeUnit(sqrt: real -> real, u: Vec3)
    requires IsSqrt(sqrt) && Dot(u, u) == 1.0
    ensures Normalize(sqrt, u) == u
  {
    UnitIsOwnDirection(sqrt, u);
  }

  /** Normalising twice is normalising once. */
  lemma NormalizeIdempotent(sqrt: real -> real, v: Vec3)
    requires IsSqrt(sqrt)
    ensures Normalize(sqrt, Normalize(sqrt, v)) == Normalize(sqrt, v)
  {
    NormalizeUnit(sqrt, Normalize(sqrt, v));
  }

  /** Normalisation forgets positive scale factors. */
  lemma NormalizeScaleInvariant(sqrt: real -> real, c: real, v: Vec3)
    requires IsSqrt(sqrt) && 0.0 < c
    ensures Normalize(sqrt, Scale(c, v)) == Normalize(sqrt, v)
  {
    if v != Zero {
      var n := Norm(sqrt, v);
      var m := Norm(sqrt, Scale(c, v));
      var d := Dot(v, v);
      assert Dot(Scale(c, v), Scale(c, v)) == c * (c * d) by {
        DotScale(c, v, Scale(c, v));
        DotScale(c, v, v);
      }
      MulPos(c, n);
      ScaledSquare(c, n, d);
      SqrtUnique(m, c * n);
      DivCancel(v, c, n);
    } else {
      assert Scale(c, v) == Zero;
    }
  }

  lemma ScaledSquare(c: real, n: real, d: real)
    requires d == Sq(n)
    ensures Sq(c * n) == c * (c * d) && Mul(c, n) == c * n
  {
  }

  lemma DivCancel(v: Vec3, c: real, n: real)
    requires 0.0 < c && n != 0.0
    ensures Div(Scale(c, v), c * n) == Div(v, n)
  {
    DivCancelScalar(v.x, c, n);
    DivCancelScalar(v.y, c, n);
    DivCancelScalar(v.z, c, n);
  }

  lemma DivCancelScalar(x: real, c: real, n: real)
    requires 0.0 < c && n != 0.0
    ensures (c * x) / (c * n) == x / n
  {
    MulNonzero(c, n);
  }

  /** Normalising a non-zero vector keeps it orthogonal to whatever it was orthogonal to. */
  lemma NormalizeKeepsOrthogonal(sqrt: real -> real, v: Vec3, w: Vec3)
    requires IsSqrt(sqrt) && v != Zero && Dot(v, w) == 0.0
    ensures Dot(Normalize(sqrt, v), w) == 0.0
  {
    var n := Norm(sqrt, v);
    DivIsScale(v, n);
    DotScale(1.0 / n, v, w);
  }

  /** The cross product of two perpendicular unit vectors is a unit vector. */
  lemma PerpendicularUnitsCross(a: Vec3, b: Vec3)
    requires Dot(a, a) == 1.0 && Dot(b, b) == 1.0 && Dot(a, b) == 0.0
    ensures Dot(Cross(a, b), Cross(a, b)) == 1.0
  {
    Lagrange(a, b);
  }

  /** The re-orthogonalisation shared by the cart and the camera: from a unit
      forward `f` and an up hint `u` not parallel to it, right is the
      normalised f x u and the rebuilt up is the normalised right x f. The
      three are pairwise perpendicular, and the rebuilt up needs no
      normalising: it already is right x f. */
  lemma Reorthogonalized(sqrt: real -> real, f: Vec3, u: Vec3)
    requires IsSqrt(sqrt) && Dot(f, f) == 1.0 && Cross(f, u) != Zero
    ensures var right := Normalize(sqrt, Cross(f, u));
      var up := Normalize(sqrt, Cross(right, f));
      Dot(right, f) == 0.0 && Dot(up, right) == 0.0 && Dot(up, f) == 0.0 && up == Cross(right, f)
  {
    var c := Cross(f, u);
    var right := Normalize(sqrt, c);
    assert Dot(right, f) == 0.0 by {
      CrossPerpendicular(f, u);
      NormalizeKeepsOrthogonal(sqrt, c, f);
    }
    var k := Cross(right, f);
    assert Normalize(sqrt, k) == k by {
      PerpendicularUnitsCross(right, f);
      NormalizeUnit(sqrt, k);
    }
    CrossPerpendicular(right, f);
  }

  /** A unit up already perpendicular to the unit forward is rebuilt as itself. */
  lemma ReorthogonalizeKeepsPerpendicular(sqrt: real -> real, f: Vec3, u: Vec3)
    requires IsSqrt(sqrt) && Dot(f, f) == 1.0 && Dot(u, u) == 1.0 && Dot(u, f) == 0.0
    ensures Normalize(sqrt, Cross(Normalize(sqrt, Cross(f, u)), f)) == u
  {
    var c := Cross(f, u);
    assert Normalize(sqrt, c) == c by {
      DotSymmetric(u, f);
      PerpendicularUnitsCross(f, u);
      NormalizeUnit(sqrt, c);
    }
    assert Cross(c, f) == u by { CrossBack(f, u); }
    NormalizeUnit(sqrt, u);
  }

  /** (f x u) x f = u for a unit f perpendicular to u. */
  lemma CrossBack(f: Vec3, u: Vec3)
    requires Dot(f, f) == 1.0 && Dot(u, f) == 0.0
    ensures Cross(Cross(f, u), f) == u
  {
    TripleProduct(f, u, f);
  }

  /** The same construction with the cross products taken in the other
      order: right is the normalised u x f and up is f x right. */
  lemma ReorthogonalizedProper(sqrt: real -> real, f: Vec3, u: Vec3)
    requires IsSqrt(sqrt) && Dot(f, f) == 1.0 && Cross(u, f) != Zero
    ensures var right := Normalize(sqrt, Cross(u, f));
      var up := Normalize(sqrt, Cross(f, right));
      Dot(right, f) == 0.0 && Dot(up, right) == 0.0 && Dot(up, f) == 0.0 && up == Cross(f, right)
  {
    var c := Cross(u, f);
    var right := Normalize(sqrt, c);
    assert Dot(right, f) == 0.0 by {
      CrossPerpendicular(u, f);
      NormalizeKeepsOrthogonal(sqrt, c, f);
    }
    var k := Cross(f, right);
    assert Normalize(sqrt, k) == k by {
      DotSymmetric(right, f);
      PerpendicularUnitsCross(f, right);
      NormalizeUnit(sqrt, k);
    }
    CrossPerpendicular(f, right);
  }

  /** A triad of directions: the first three rows of an orientation matrix. */
  datatype Frame = Frame(right: Vec3, up: Vec3, forward: Vec3)

  /** The three directions are unit vectors and pairwise perpendicular. */
  predicate Orthonormal(fr: Frame) {
    Dot(fr.right, fr.right) == 1.0 && Dot(fr.up, fr.up) == 1.0 && Dot(fr.forward, fr.forward) == 1.0
    && Dot(fr.right, fr.forward) == 0.0 && Dot(fr.up, fr.right) == 0.0 && Dot(fr.up, fr.forward) == 0.0
  }

  /** The triad of `rotation_matrix_from_vectors`: forward and up are
      normalised, right is the normalised forward x up, and up is rebuilt as
      the normalised right x forward. When forward and up are parallel the
      right vector is the fallback direction. */
  function OrientationFrame(sqrt: real -> real, forward: Vec3, up: Vec3): (fr: Frame)
    requires IsSqrt(sqrt)
    ensures fr.forward == Normalize(sqrt, forward)
    ensures Cross(fr.forward, Normalize(sqrt, up)) == Zero ==> fr.right == FallbackDirection
    ensures Cross(fr.forward, Normalize(sqrt, up)) != Zero ==> Orthonormal(fr)
  {
    var f := Normalize(sqrt, forward);
    var right := Normalize(sqrt, Cross(f, Normalize(sqrt, up)));
    var fr := Frame(right, Normalize(sqrt, Cross(right, f)), f);
    if Cross(f, Normalize(sqrt, up)) != Zero then
      Reorthogonalized(sqrt, f, Normalize(sqrt, up));
      fr
    else
      fr
  }

  /** One row of a 4x4 matrix: a direction in the first three columns, 0 in the last. */
  function Row(v: Vec3): seq<real> {
    [v.x, v.y, v.z, 0.0]
  }

  /** A matrix with four rows of four entries. */
  predicate Is4x4(m: seq<seq<real>>) {
    |m| == 4 && forall i | 0 <= i < 4 :: |m[i]| == 4
  }

  /** The first three columns of row `i`. */
  function RowVec(m: seq<seq<real>>, i: int): Vec3
    requires Is4x4(m) && 0 <= i < 4
  {
    Vec3(m[i][0], m[i][1], m[i][2])
  }

  /** The determinant of the upper-left 3x3 block: row 0 . (row 1 x row 2). */
  function Det3(m: seq<seq<real>>): real
    requires Is4x4(m)
  {
    Dot(RowVec(m, 0), Cross(RowVec(m, 1), RowVec(m, 2)))
  }

  /** The homogeneous matrix whose first three rows are the given triad. */
  function FrameMatrix(fr: Frame): (m: seq<seq<real>>)
    ensures Is4x4(m)
    ensures RowVec(m, 0) == fr.right && RowVec(m, 1) == fr.up && RowVec(m, 2) == fr.forward
    ensures m[3] == [0.0, 0.0, 0.0, 1.0]
    ensures forall i | 0 <= i < 3 :: m[i][3] == 0.0
  {
    [Row(fr.right), Row(fr.up), Row(fr.forward), [0.0, 0.0, 0.0, 1.0]]
  }

  /** `rotation_matrix_from_vectors`, as written: rows right, up and forward
      of `OrientationFrame`, then the homogeneous row (0, 0, 0, 1). */
  function RotationMatrixFromVectors(sqrt: real -> real, forward: Vec3, up: Vec3): (m: seq<seq<real>>)
    requires IsSqrt(sqrt)
    ensures Is4x4(m)
    ensures m[3] == [0.0, 0.0, 0.0, 1.0] && forall i | 0 <= i < 3 :: m[i][3] == 0.0
    ensures RowVec(m, 0) == OrientationFrame(sqrt, forward, up).right
    ensures RowVec(m, 1) == OrientationFrame(sqrt, forward, up).up
    ensures RowVec(m, 2) == Normalize(sqrt, forward)
  {
    FrameMatrix(OrientationFrame(sqrt, forward, up))
  }

  /** A triad whose up is right x forward is left-handed: the determinant of
      its rows is -1. */
  lemma LeftHandedDeterminant(right: Vec3, f: Vec3)
    requires Dot(right, right) == 1.0 && Dot(f, f) == 1.0 && Dot(right, f) == 0.0
    ensures Dot(right, Cross(Cross(right, f), f)) == -1.0
  {
    TripleProduct(right, f, f);
    assert Cross(Cross(right, f), f) == Neg(right);
  }

  /** A triad whose up is forward x right is right-handed: the determinant of
      its rows is +1. */
  lemma RightHandedDeterminant(right: Vec3, f: Vec3)
    requires Dot(right, right) == 1.0 && Dot(f, f) == 1.0 && Dot(right, f) == 0.0
    ensures Dot(right, Cross(Cross(f, right), f)) == 1.0
  {
    TripleProduct(f, right, f);
    assert Cross(Cross(f, right), f) == right;
  }

  /** The as-written matrix has orthonormal rows, but the rebuilt up is
      right x forward, which puts the triad in left-handed order: the
      determinant is -1, so the matrix mirrors the cart instead of rotating it. */
  lemma RotationMatrixIsReflection(sqrt: real -> real, forward: Vec3, up: Vec3)
    requires IsSqrt(sqrt)
    requires Cross(Normalize(sqrt, forward), Normalize(sqrt, up)) != Zero
    ensures Orthonormal(OrientationFrame(sqrt, forward, up))
    ensures Det3(RotationMatrixFromVectors(sqrt, forward, up)) == -1.0
  {
    var f := Normalize(sqrt, forward);
    var u := Normalize(sqrt, up);
    var fr := OrientationFrame(sqrt, forward, up);
    assert fr.up == Cross(fr.right, f) by { Reorthogonalized(sqrt, f, u); }
    var m := RotationMatrixFromVectors(sqrt, forward, up);
    assert Det3(m) == Dot(fr.right, Cross(fr.up, f));
    LeftHandedDeterminant(fr.right, f);
  }

  /** A concrete witness: forward along x and up along y give the rows
      (0,0,1), (0,1,0), (1,0,0), a permutation matrix with determinant -1. */
  lemma ReflectionExample(sqrt: real -> real, ex: Vec3, ey: Vec3)
    requires IsSqrt(sqrt) && ex == Vec3(1.0, 0.0, 0.0) && ey == Vec3(0.0, 1.0, 0.0)
    ensures RotationMatrixFromVectors(sqrt, ex, ey)
         == [[0.0, 0.0, 1.0, 0.0], [0.0, 1.0, 0.0, 0.0], [1.0, 0.0, 0.0, 0.0], [0.0, 0.0, 0.0, 1.0]]
    ensures Det3(RotationMatrixFromVectors(sqrt, ex, ey)) == -1.0
  {
    var ez := Vec3(0.0, 0.0, 1.0);
    var m := RotationMatrixFromVectors(sqrt, ex, ey);
    assert m == [Row(ez), Row(ey), Row(ex), [0.0, 0.0, 0.0, 1.0]] by { ExampleFrame(sqrt, ex, ey, ez); }
    ExampleRows(ex, ey, ez);
    AxisDet(m, ex, ey, ez);
  }

  lemma ExampleRows(ex: Vec3, ey: Vec3, ez: Vec3)
    requires ex == Vec3(1.0, 0.0, 0.0) && ey == Vec3(0.0, 1.0, 0.0) && ez == Vec3(0.0, 0.0, 1.0)
    ensures [Row(ez), Row(ey), Row(ex), [0.0, 0.0, 0.0, 1.0]]
         == [[0.0, 0.0, 1.0, 0.0], [0.0, 1.0, 0.0, 0.0], [1.0, 0.0, 0.0, 0.0], [0.0, 0.0, 0.0, 1.0]]
  {
  }

  lemma ExampleFrame(sqrt: real -> real, ex: Vec3, ey: Vec3, ez: Vec3)
    requires IsSqrt(sqrt) && ex == Vec3(1.0, 0.0, 0.0) && ey == Vec3(0.0, 1.0, 0.0) && ez == Vec3(0.0, 0.0, 1.0)
    ensures OrientationFrame(sqrt, ex, ey) == Frame(ez, ey, ex)
  {
    assert Normalize(sqrt, ex) == ex by { assert Dot(ex, ex) == 1.0; NormalizeUnit(sqrt, ex); }
    assert Normalize(sqrt, ey) == ey by { assert Dot(ey, ey) == 1.0; NormalizeUnit(sqrt, ey); }
    assert Normalize(sqrt, Cross(ex, ey)) == ez by {
      assert Cross(ex, ey) == ez;
      assert Dot(ez, ez) == 1.0;
      NormalizeUnit(sqrt, ez);
    }
    assert Cross(ez, ex) == ey;
  }

  lemma AxisDet(m: seq<seq<real>>, ex: Vec3, ey: Vec3, ez: Vec3)
    requires ex == Vec3(1.0, 0.0, 0.0) && ey == Vec3(0.0, 1.0, 0.0) && ez == Vec3(0.0, 0.0, 1.0)
    requires m == [Row(ez), Row(ey), Row(ex), [0.0, 0.0, 0.0, 1.0]]
    ensures Is4x4(m) && Det3(m) == -1.0
  {
    assert RowVec(m, 0) == ez && RowVec(m, 1) == ey && RowVec(m, 2) == ex;
    assert Cross(ey, ex) == Vec3(0.0, 0.0, -1.0);
  }

  /** The right-handed triad: right is the normalised up x forward and up
      the normalised forward x right. */
  function ProperFrame(sqrt: real -> real, forward: Vec3, up: Vec3): (fr: Frame)
    requires IsSqrt(sqrt)
    ensures fr.forward == Normalize(sqrt, forward)
    ensures Cross(Normalize(sqrt, up), fr.forward) == Zero ==> fr.right == FallbackDirection
    ensures Cross(Normalize(sqrt, up), fr.forward) != Zero ==> Orthonormal(fr) && fr.up == Cross(fr.forward, fr.right)
  {
    var f := Normalize(sqrt, forward);
    var right := Normalize(sqrt, Cross(Normalize(sqrt, up), f));
    var fr := Frame(right, Normalize(sqrt, Cross(f, right)), f);
    if Cross(Normalize(sqrt, up), f) != Zero then
      ReorthogonalizedProper(sqrt, f, Normalize(sqrt, up));
      fr
    else
      fr
  }

  /** The corrected orientation matrix: rows right, up and forward of the
      right-handed triad. Its rows are orthonormal and its determinant is +1,
      so it is a rotation. */
  function ProperRotationMatrix(sqrt: real -> real, forward: Vec3, up: Vec3): (m: seq<seq<real>>)
    requires IsSqrt(sqrt)
    ensures Is4x4(m)
    ensures m[3] == [0.0, 0.0, 0.0, 1.0] && forall i | 0 <= i < 3 :: m[i][3] == 0.0
    ensures RowVec(m, 2) == Normalize(sqrt, forward)
    ensures Cross(Normalize(sqrt, up), Normalize(sqrt, forward)) != Zero ==> Det3(m) == 1.0
  {
    var fr := ProperFrame(sqrt, forward, up);
    if Cross(Normalize(sqrt, up), fr.forward) != Zero then
      RightHandedDeterminant(fr.right, fr.forward);
      FrameMatrix(fr)
    else
      FrameMatrix(fr)
  }

  /** The correction keeps the as-written up and forward rows and only
      turns the right vector around. */
  lemma ProperFrameFlipsRight(sqrt: real -> real, forward: Vec3, up: Vec3)
    requires IsSqrt(sqrt)
    requires Cross(Normalize(sqrt, forward), Normalize(sqrt, up)) != Zero
    ensures ProperFrame(sqrt, forward, up).right == Neg(OrientationFrame(sqrt, forward, up).right)
    ensures ProperFrame(sqrt, forward, up).up == OrientationFrame(sqrt, forward, up).up
  {
    var f := Normalize(sqrt, forward);
    var u := Normalize(sqrt, up);
    var right := Normalize(sqrt, Cross(f, u));
    assert Normalize(sqrt, Cross(u, f)) == Neg(right) by { SwappedCrossDirection(sqrt, f, u); }
    assert Cross(f, Neg(right)) == Cross(right, f) by { CrossAnticommutes(right, f); CrossNeg(f, right); }
  }

  /** Swapping the factors of a non-zero cross product turns its direction around. */
  lemma SwappedCrossDirection(sqrt: real -> real, f: Vec3, u: Vec3)
    requires IsSqrt(sqrt) && Cross(f, u) != Zero
    ensures Normalize(sqrt, Cross(u, f)) == Neg(Normalize(sqrt, Cross(f, u)))
  {
    var c := Cross(f, u);
    assert Cross(u, f) == Neg(c) by { CrossAnticommutes(u, f); }
    NormalizeNeg(sqrt, c);
  }

  lemma NegZero(v: Vec3)
    ensures Neg(v) == Zero <==> v == Zero
  {
  }

  lemma CrossNeg(a: Vec3, b: Vec3)
    ensures Cross(a, Neg(b)) == Neg(Cross(a, b))
  {
  }

  /** Normalising a non-zero vector commutes with negation. */
  lemma NormalizeNeg(sqrt: real -> real, v: Vec3)
    requires IsSqrt(sqrt) && v != Zero
    ensures Normalize(sqrt, Neg(v)) == Neg(Normalize(sqrt, v))
  {
    var n := Norm(sqrt, v);
    assert Norm(sqrt, Neg(v)) == n by { DotNeg(v); }
    NegZero(v);
    NegDiv(v, n);
  }

  lemma DotNeg(v: Vec3)
    ensures Dot(Neg(v), Neg(v)) == Dot(v, v)
  {
    NegSquare(v.x);
    NegSquare(v.y);
    NegSquare(v.z);
  }

  lemma NegSquare(a: real)
    ensures (-a) * (-a) == a * a
  {
  }

  lemma NegDiv(v: Vec3, n: real)
    requires n != 0.0
    ensures Div(Neg(v), n) == Neg(Div(v, n))
  {
  }

  /** `get_cart_bounds`: the box of side `size` centred on the cart. */
  datatype Bounds = Bounds(min: Vec3, max: Vec3, center: Vec3)

  /** Componentwise `a <= b`. */
  predicate LessEq(a: Vec3, b: Vec3) {
    a.x <= b.x && a.y <= b.y && a.z <= b.z
  }

  function GetCartBounds(position: Vec3, size: real): (b: Bounds)
    ensures b.center == position
    ensures Sub(b.max, b.min) == Vec3(size, size, size)
    ensures Add(b.min, b.max) == Scale(2.0, b.center)
    ensures 0.0 <= size ==> LessEq(b.min, b.center) && LessEq(b.center, b.max)
    ensures size < 0.0 ==> !LessEq(b.min, b.max)
  {
    var half := size / 2.0;
    Bounds(SubScalar(position, half), AddScalar(position, half), position)
  }
}
