/** What the matrix operations of `Matrix4` promise: the product and
    transpose entry by entry, the identity as a two-sided unit, the fused
    operations as products with basis matrices, the geometry of the
    rotations, the camera basis and the projections, and which properties
    the approximate equality keeps. */
module Matrix4Laws {
  import opened Vector4
  import Vector3
  import Approx
  import opened Matrix4

  // ---------------------------------------------------------------------
  // Product, transpose, identity

  /** Column j of a matrix. */
  function Col(m: Mat4, j: nat): Vec4
    requires j < 4
  {
    Vec4(m.r0.At(j), m.r1.At(j), m.r2.At(j), m.r3.At(j))
  }

  /** Inner product of two four-component vectors. */
  function Inner(u: Vec4, v: Vec4): real {
    u.x * v.x + u.y * v.y + u.z * v.z + u.w * v.w
  }

  /** Entry (i, j) of the product is row i of `a` against column j of `b`,
      the sum over k of `a[i][k] * b[k][j]`. */
  lemma DotEntry(a: Mat4, b: Mat4, i: nat, j: nat)
    requires i < 4 && j < 4
    ensures Dot(a, b).At(i, j) == Inner(a.Row(i), Col(b, j))
  {
    DotRow(a, b, i);
    TransformColumn(a.Row(i), b, j);
  }

  /** Component j of `v·m` is `v` against column j of `m`. */
  lemma TransformColumn(v: Vec4, m: Mat4, j: nat)
    requires j < 4
    ensures Transform(v, m).At(j) == Inner(v, Col(m, j))
  {
  }

  /** Row i of the product is row i of `a` transformed by `b`. */
  lemma DotRow(a: Mat4, b: Mat4, i: nat)
    requires i < 4
    ensures Dot(a, b).Row(i) == Transform(a.Row(i), b)
  {
  }

  /** Transposing moves entry (j, i) to (i, j). */
  lemma TransposeEntry(m: Mat4, i: nat, j: nat)
    requires i < 4 && j < 4
    ensures Transpose(m).At(i, j) == m.At(j, i)
  {
  }

  /** Transposing twice gives the original matrix. */
  lemma TransposeInvolution(m: Mat4)
    ensures Transpose(Transpose(m)) == m
  {
  }

  /** The identity has ones on the diagonal and zeros elsewhere. */
  lemma IdentityEntry(i: nat, j: nat)
    requires i < 4 && j < 4
    ensures Identity().At(i, j) == if i == j then 1.0 else 0.0
  {
  }

  /** The identity is a unit of the product on both sides. */
  lemma IdentityIsUnit(m: Mat4)
    ensures Dot(Identity(), m) == m
    ensures Dot(m, Identity()) == m
  {
  }

  /** The transpose of a product is the product of the transposes in the
      opposite order. */
  lemma TransposeOfProduct(a: Mat4, b: Mat4)
    ensures Transpose(Dot(a, b)) == Dot(Transpose(b), Transpose(a))
  {
    var p, q := Transpose(Dot(a, b)), Dot(Transpose(b), Transpose(a));
    forall i: nat, j: nat | i < 4 && j < 4
      ensures p.At(i, j) == q.At(i, j)
    {
      TransposeEntry(Dot(a, b), i, j);
      DotEntry(a, b, j, i);
      DotEntry(Transpose(b), Transpose(a), i, j);
      TransposeRowsAndColumns(b, i);
      TransposeRowsAndColumns(a, j);
      InnerCommutes(a.Row(j), Col(b, i));
    }
    EqualByEntries(p, q);
  }

  /** Row i of the transpose is column i, and column i of the transpose is
      row i. */
  lemma TransposeRowsAndColumns(m: Mat4, i: nat)
    requires i < 4
    ensures Transpose(m).Row(i) == Col(m, i)
    ensures Col(Transpose(m), i) == m.Row(i)
  {
  }

  lemma InnerCommutes(u: Vec4, v: Vec4)
    ensures Inner(u, v) == Inner(v, u)
  {
  }

  /** Matrices with the same sixteen entries are equal. */
  lemma EqualByEntries(p: Mat4, q: Mat4)
    requires forall i: nat, j: nat :: i < 4 && j < 4 ==> p.At(i, j) == q.At(i, j)
    ensures p == q
  {
    assert p.At(0, 0) == q.At(0, 0) && p.At(0, 1) == q.At(0, 1);
    assert p.At(0, 2) == q.At(0, 2) && p.At(0, 3) == q.At(0, 3);
    assert p.At(1, 0) == q.At(1, 0) && p.At(1, 1) == q.At(1, 1);
    assert p.At(1, 2) == q.At(1, 2) && p.At(1, 3) == q.At(1, 3);
    assert p.At(2, 0) == q.At(2, 0) && p.At(2, 1) == q.At(2, 1);
    assert p.At(2, 2) == q.At(2, 2) && p.At(2, 3) == q.At(2, 3);
    assert p.At(3, 0) == q.At(3, 0) && p.At(3, 1) == q.At(3, 1);
    assert p.At(3, 2) == q.At(3, 2) && p.At(3, 3) == q.At(3, 3);
  }

  /** The product of the two whole-number matrices used as the program's
      own example. */
  lemma DotProductExample()
    ensures Dot(
      Mat4(Vec4(2.0, 4.0, 8.0, 16.0), Vec4(16.0, 2.0, 4.0, 8.0),
           Vec4(8.0, 16.0, 2.0, 4.0), Vec4(4.0, 8.0, 16.0, 2.0)),
      Mat4(Vec4(1.0, 2.0, 3.0, 4.0), Vec4(0.0, 1.0, 2.0, 3.0),
           Vec4(0.0, 0.0, 1.0, 2.0), Vec4(0.0, 0.0, 0.0, 1.0)))
      == Mat4(Vec4(2.0, 8.0, 22.0, 52.0), Vec4(16.0, 34.0, 56.0, 86.0),
              Vec4(8.0, 32.0, 58.0, 88.0), Vec4(4.0, 16.0, 44.0, 74.0))
  {
  }

  // ---------------------------------------------------------------------
  // Fused operations are products with a basis matrix on the left

  /** A row of a basis matrix whose fourth entry is zero combines only the
      first three rows of `m`. */
  lemma RowCombination(b: Vec4, m: Mat4)
    requires b.w == 0.0
    ensures Transform(b, m) == Combine3(b, m)
  {
  }

  /** Unit weights pick out a single row. */
  lemma CombineUnit(m: Mat4)
    ensures Combine3(Vec4(1.0, 0.0, 0.0, 0.0), m) == m.r0
    ensures Combine3(Vec4(0.0, 1.0, 0.0, 0.0), m) == m.r1
    ensures Combine3(Vec4(0.0, 0.0, 1.0, 0.0), m) == m.r2
  {
  }

  /** A unit row of a basis matrix picks out one row of `m`. */
  lemma UnitRows(m: Mat4)
    ensures Transform(Vec4(1.0, 0.0, 0.0, 0.0), m) == m.r0
    ensures Transform(Vec4(0.0, 1.0, 0.0, 0.0), m) == m.r1
    ensures Transform(Vec4(0.0, 0.0, 1.0, 0.0), m) == m.r2
    ensures Transform(Vec4(0.0, 0.0, 0.0, 1.0), m) == m.r3
  {
  }

  lemma TranslateIsProduct(m: Mat4, t: Vector3.Vec3)
    ensures Translate(m, t) == Dot(Translation(t), m)
  {
    UnitRows(m);
    var v := Vec4(t.x, t.y, t.z, 1.0);
    assert Translation(t).r3 == v;
    var p := Transform(v, m);
    var q := Translate(m, t).r3;
    WeightedSum(m.r0.x, m.r1.x, m.r2.x, m.r3.x, t.x, t.y, t.z);
    WeightedSum(m.r0.y, m.r1.y, m.r2.y, m.r3.y, t.x, t.y, t.z);
    WeightedSum(m.r0.z, m.r1.z, m.r2.z, m.r3.z, t.x, t.y, t.z);
    WeightedSum(m.r0.w, m.r1.w, m.r2.w, m.r3.w, t.x, t.y, t.z);
    assert p.x == q.x && p.y == q.y && p.z == q.z && p.w == q.w;
    assert p == q;
  }

  /** One component of a point transform, with the weights on either side. */
  lemma WeightedSum(p: real, q: real, r: real, d: real, x: real, y: real, z: real)
    ensures x * p + y * q + z * r + 1.0 * d == p * x + q * y + r * z + d
  {
  }

  lemma XRotateIsProduct(m: Mat4, a: Angle)
    ensures XRotate(m, a) == Dot(XRotation(a), m)
  {
    var b, c, r := XRotation(a), CombineRows(XRotation(a), m), XRotate(m, a);
    assert c.r0 == r.r0 by { CombineUnit(m); }
    assert c.r1 == r.r1 by { XRotationRow1(m, a.cos, a.sin); }
    assert c.r2 == r.r2 by { XRotationRow2(m, a.cos, a.sin); }
    CombineRowsIsProduct(b, m);
    assert Mat4(b.r0, b.r1, b.r2, Identity().r3) == b;
  }

  lemma YRotateIsProduct(m: Mat4, a: Angle)
    ensures YRotate(m, a) == Dot(YRotation(a), m)
  {
    var b, c, r := YRotation(a), CombineRows(YRotation(a), m), YRotate(m, a);
    assert c.r1 == r.r1 by { CombineUnit(m); }
    assert c.r0 == r.r0 by { YRotationRow0(m, a.cos, a.sin); }
    assert c.r2 == r.r2 by { YRotationRow2(m, a.cos, a.sin); }
    CombineRowsIsProduct(b, m);
    assert Mat4(b.r0, b.r1, b.r2, Identity().r3) == b;
  }

  lemma ZRotateIsProduct(m: Mat4, a: Angle)
    ensures ZRotate(m, a) == Dot(ZRotation(a), m)
  {
    var b, c, r := ZRotation(a), CombineRows(ZRotation(a), m), ZRotate(m, a);
    assert c.r2 == r.r2 by { CombineUnit(m); }
    assert c.r0 == r.r0 by { ZRotationRow0(m, a.cos, a.sin); }
    assert c.r1 == r.r1 by { ZRotationRow1(m, a.cos, a.sin); }
    CombineRowsIsProduct(b, m);
    assert Mat4(b.r0, b.r1, b.r2, Identity().r3) == b;
  }

  /** Row 1 of the x rotation, combined with `m`, is the row the fused
      x_rotate writes. */
  lemma XRotationRow1(m: Mat4, c: real, s: real)
    ensures Combine3(Vec4(0.0, c, s, 0.0), m) == MixAdd(m.r1, m.r2, c, s)
  {
  }

  /** Row 2 of the x rotation, combined with `m`, is the row the fused
      x_rotate writes. */
  lemma XRotationRow2(m: Mat4, c: real, s: real)
    ensures Combine3(Vec4(0.0, -s, c, 0.0), m) == MixSub(m.r2, m.r1, c, s)
  {
  }

  /** Row 0 of the y rotation, combined with `m`, is the row the fused
      y_rotate writes. */
  lemma YRotationRow0(m: Mat4, c: real, s: real)
    ensures Combine3(Vec4(c, 0.0, -s, 0.0), m) == MixSub(m.r0, m.r2, c, s)
  {
  }

  /** Row 2 of the y rotation, combined with `m`, is the row the fused
      y_rotate writes. */
  lemma YRotationRow2(m: Mat4, c: real, s: real)
    ensures Combine3(Vec4(s, 0.0, c, 0.0), m) == MixAdd(m.r0, m.r2, s, c)
  {
  }

  /** Row 0 of the z rotation, combined with `m`, is the row the fused
      z_rotate writes. */
  lemma ZRotationRow0(m: Mat4, c: real, s: real)
    ensures Combine3(Vec4(c, s, 0.0, 0.0), m) == MixAdd(m.r0, m.r1, c, s)
  {
  }

  /** Row 1 of the z rotation, combined with `m`, is the row the fused
      z_rotate writes. */
  lemma ZRotationRow1(m: Mat4, c: real, s: real)
    ensures Combine3(Vec4(-s, c, 0.0, 0.0), m) == MixSub(m.r1, m.r0, c, s)
  {
  }

  /** Combining three rows whose fourth entries are zero, and keeping row
      3, is the product with those rows over the unit fourth row. */
  lemma CombineRowsIsProduct(b: Mat4, m: Mat4)
    requires b.r0.w == 0.0 && b.r1.w == 0.0 && b.r2.w == 0.0
    ensures CombineRows(b, m) == Dot(Mat4(b.r0, b.r1, b.r2, Identity().r3), m)
  {
    var d, r := Dot(Mat4(b.r0, b.r1, b.r2, Identity().r3), m), CombineRows(b, m);
    assert d.r0 == r.r0 by { RowCombination(b.r0, m); }
    assert d.r1 == r.r1 by { RowCombination(b.r1, m); }
    assert d.r2 == r.r2 by { RowCombination(b.r2, m); }
    assert d.r3 == r.r3 by { UnitRows(m); }
  }

  lemma AxisRotateIsProduct(m: Mat4, axis: Vector3.Vec3, a: Angle)
    ensures AxisRotate(m, axis, a) == Dot(AxisRotation(axis, a), m)
  {
    CombineRowsIsProduct(AxisBasis(axis, a), m);
  }

  // ---------------------------------------------------------------------
  // Geometry of the constructors

  /** A translation moves points (w = 1) by `t` and leaves directions
      (w = 0) alone. */
  lemma TranslationMovesPoints(p: Vector3.Vec3, d: Vector3.Vec3, t: Vector3.Vec3)
    ensures Transform(Vector3.ToVec4(p), Translation(t)) == Vector3.ToVec4(p.Add(t))
    ensures Transform(Vec4(d.x, d.y, d.z, 0.0), Translation(t)) == Vec4(d.x, d.y, d.z, 0.0)
  {
  }

  /** The x rotation fixes the x axis and turns y towards z. */
  lemma XRotationTurnsAxes(a: Angle)
    ensures Transform(Vec4(1.0, 0.0, 0.0, 0.0), XRotation(a)) == Vec4(1.0, 0.0, 0.0, 0.0)
    ensures Transform(Vec4(0.0, 1.0, 0.0, 0.0), XRotation(a)) == Vec4(0.0, a.cos, a.sin, 0.0)
    ensures Transform(Vec4(0.0, 0.0, 1.0, 0.0), XRotation(a)) == Vec4(0.0, -a.sin, a.cos, 0.0)
  {
  }

  /** The y rotation fixes the y axis and turns z towards x. */
  lemma YRotationTurnsAxes(a: Angle)
    ensures Transform(Vec4(0.0, 1.0, 0.0, 0.0), YRotation(a)) == Vec4(0.0, 1.0, 0.0, 0.0)
    ensures Transform(Vec4(0.0, 0.0, 1.0, 0.0), YRotation(a)) == Vec4(a.sin, 0.0, a.cos, 0.0)
    ensures Transform(Vec4(1.0, 0.0, 0.0, 0.0), YRotation(a)) == Vec4(a.cos, 0.0, -a.sin, 0.0)
  {
  }

  /** The z rotation fixes the z axis and turns x towards y. */
  lemma ZRotationTurnsAxes(a: Angle)
    ensures Transform(Vec4(0.0, 0.0, 1.0, 0.0), ZRotation(a)) == Vec4(0.0, 0.0, 1.0, 0.0)
    ensures Transform(Vec4(1.0, 0.0, 0.0, 0.0), ZRotation(a)) == Vec4(a.cos, a.sin, 0.0, 0.0)
    ensures Transform(Vec4(0.0, 1.0, 0.0, 0.0), ZRotation(a)) == Vec4(-a.sin, a.cos, 0.0, 0.0)
  {
  }

  /** For a true sine and cosine, rotating by the opposite angle undoes a
      rotation about x, and the opposite rotation is the transpose. */
  lemma XRotationInverse(a: Angle)
    requires a.IsUnit()
    ensures Dot(XRotation(a), XRotation(a.Neg())) == Identity()
    ensures Transpose(XRotation(a)) == XRotation(a.Neg())
  {
    var n := XRotation(a.Neg());
    assert Transform(XRotation(a).r1, n) == Identity().r1;
    assert Transform(XRotation(a).r2, n) == Identity().r2;
  }

  /** The same for the rotation about y. */
  lemma YRotationInverse(a: Angle)
    requires a.IsUnit()
    ensures Dot(YRotation(a), YRotation(a.Neg())) == Identity()
    ensures Transpose(YRotation(a)) == YRotation(a.Neg())
  {
    var n := YRotation(a.Neg());
    assert Transform(YRotation(a).r0, n) == Identity().r0;
    assert Transform(YRotation(a).r2, n) == Identity().r2;
  }

  /** The same for the rotation about z. */
  lemma ZRotationInverse(a: Angle)
    requires a.IsUnit()
    ensures Dot(ZRotation(a), ZRotation(a.Neg())) == Identity()
    ensures Transpose(ZRotation(a)) == ZRotation(a.Neg())
  {
    var n := ZRotation(a.Neg());
    assert Transform(ZRotation(a).r0, n) == Identity().r0;
    assert Transform(ZRotation(a).r1, n) == Identity().r1;
  }

  /** About a coordinate axis, the general rotation is the single-axis one. */
  lemma AxisRotationOnCoordinateAxes(a: Angle)
    ensures AxisRotation(Vector3.Vec3(1.0, 0.0, 0.0), a) == XRotation(a)
    ensures AxisRotation(Vector3.Vec3(0.0, 1.0, 0.0), a) == YRotation(a)
    ensures AxisRotation(Vector3.Vec3(0.0, 0.0, 1.0), a) == ZRotation(a)
  {
  }

  /** A unit axis is left where it is by the rotation about it. */
  lemma AxisRotationFixesAxis(axis: Vector3.Vec3, a: Angle)
    requires axis.Len2() == 1.0
    ensures Transform(Vec4(axis.x, axis.y, axis.z, 0.0), AxisRotation(axis, a))
         == Vec4(axis.x, axis.y, axis.z, 0.0)
  {
    AxisBasisRow0(axis, a);
    AxisBasisRow1(axis, a);
    AxisBasisRow2(axis, a);
    RodriguesFixesAxis(AxisRotation(axis, a), axis.x, axis.y, axis.z, a.sin, a.cos);
  }

  /** Any matrix whose upper-left block has the Rodrigues entries for the
      unit vector (x, y, z), and whose fourth column starts with zeros,
      leaves that vector in place. */
  lemma RodriguesFixesAxis(r: Mat4, x: real, y: real, z: real, s: real, c: real)
    requires x * x + y * y + z * z == 1.0
    requires r.r0.x == x * x + (1.0 - x * x) * c
    requires r.r0.y == x * y * (1.0 - c) + z * s
    requires r.r0.z == x * z * (1.0 - c) - y * s
    requires r.r1.x == x * y * (1.0 - c) - z * s
    requires r.r1.y == y * y + (1.0 - y * y) * c
    requires r.r1.z == y * z * (1.0 - c) + x * s
    requires r.r2.x == x * z * (1.0 - c) + y * s
    requires r.r2.y == y * z * (1.0 - c) - x * s
    requires r.r2.z == z * z + (1.0 - z * z) * c
    requires r.r0.w == 0.0 && r.r1.w == 0.0 && r.r2.w == 0.0
    ensures Transform(Vec4(x, y, z, 0.0), r) == Vec4(x, y, z, 0.0)
  {
    var xy := x * y;
    assert r.r0.y == xy * (1.0 - c) + z * s;
    AxisFixedComponent(x, y, z, xy, x * z, s, c, r.r0.x, r.r1.x, r.r2.x);
    AxisFixedComponent(y, z, x, y * z, xy, s, c, r.r1.y, r.r2.y, r.r0.y);
    AxisFixedComponent(z, x, y, x * z, y * z, s, c, r.r2.z, r.r0.z, r.r1.z);
    FixedByColumns(r, x, y, z);
  }

  /** A vector with w = 0 is fixed once each of its three components is
      reproduced by the matching column. */
  lemma FixedByColumns(r: Mat4, x: real, y: real, z: real)
    requires x * r.r0.x + y * r.r1.x + z * r.r2.x == x
    requires y * r.r1.y + z * r.r2.y + x * r.r0.y == y
    requires z * r.r2.z + x * r.r0.z + y * r.r1.z == z
    requires r.r0.w == 0.0 && r.r1.w == 0.0 && r.r2.w == 0.0
    ensures Transform(Vec4(x, y, z, 0.0), r) == Vec4(x, y, z, 0.0)
  {
    RowCombination(Vec4(x, y, z, 0.0), r);
  }

  /** The entries of the Rodrigues block, written out one row at a time. */
  lemma AxisBasisRow0(axis: Vector3.Vec3, a: Angle)
    ensures AxisBasis(axis, a).r0.x == axis.x * axis.x + (1.0 - axis.x * axis.x) * a.cos
    ensures AxisBasis(axis, a).r0.y == axis.x * axis.y * (1.0 - a.cos) + axis.z * a.sin
    ensures AxisBasis(axis, a).r0.z == axis.x * axis.z * (1.0 - a.cos) - axis.y * a.sin
  {
  }

  lemma AxisBasisRow1(axis: Vector3.Vec3, a: Angle)
    ensures AxisBasis(axis, a).r1.x == axis.x * axis.y * (1.0 - a.cos) - axis.z * a.sin
    ensures AxisBasis(axis, a).r1.y == axis.y * axis.y + (1.0 - axis.y * axis.y) * a.cos
    ensures AxisBasis(axis, a).r1.z == axis.y * axis.z * (1.0 - a.cos) + axis.x * a.sin
  {
  }

  lemma AxisBasisRow2(axis: Vector3.Vec3, a: Angle)
    ensures AxisBasis(axis, a).r2.x == axis.x * axis.z * (1.0 - a.cos) + axis.y * a.sin
    ensures AxisBasis(axis, a).r2.y == axis.y * axis.z * (1.0 - a.cos) - axis.x * a.sin
    ensures AxisBasis(axis, a).r2.z == axis.z * axis.z + (1.0 - axis.z * axis.z) * a.cos
  {
  }

  /** One column of the fixed-axis computation: `u`, `v`, `w` is a cyclic
      ordering of the unit axis, `uv` and `uw` the products of `u` with the
      other two, and `eu`, `ev`, `ew` the entries of the Rodrigues block
      that multiply `u`, `v` and `w`. */
  lemma AxisFixedComponent(u: real, v: real, w: real, uv: real, uw: real, s: real, c: real,
                           eu: real, ev: real, ew: real)
    requires u * u + v * v + w * w == 1.0
    requires uv == u * v && uw == u * w
    requires eu == u * u + (1.0 - u * u) * c
    requires ev == uv * (1.0 - c) - w * s
    requires ew == uw * (1.0 - c) + v * s
    ensures u * eu + v * ev + w * ew == u
  {
    var p := 1.0 - c;
    var q := u * u;
    var t := v * v + w * w;
    assert t == 1.0 - q;
    assert v * ev == u * (v * v) * p - v * w * s;
    assert w * ew == u * (w * w) * p + v * w * s;
    assert v * ev + w * ew == u * t * p;
    assert u * eu == u * q + u * t * c;
    assert u * t * c + u * t * p == u * t;
  }

  /** With an exact `isqrt`, an origin distinct from the target and an
      `up` not parallel to the line of sight, the three direction rows of
      the camera basis have unit length, so together with their pairwise
      orthogonality they form an orthonormal basis. */
  lemma LookAtOrthonormal(origin: Vector3.Vec3, target: Vector3.Vec3, up: Vector3.Vec3,
                          isqrt: real -> real)
    requires Approx.IsExactInvSqrt(isqrt)
    requires origin.Sub(target).Len2() > 0.0
    requires up.Cross(origin.Sub(target)).Len2() > 0.0
    ensures var m := LookAt(origin, target, up, isqrt);
      && Vector3.FromVec4(m.r0).Len2() == 1.0
      && Vector3.FromVec4(m.r1).Len2() == 1.0
      && Vector3.FromVec4(m.r2).Len2() == 1.0
  {
    var d := origin.Sub(target);
    var k := isqrt(d.Len2());
    var z := d.Normalize(isqrt);
    assert z.Len2() == 1.0;
    assert k > 0.0;
    var u := up.Cross(z);
    CrossOfScaledLen2(up, d, k);
    assert u.Len2() == k * k * up.Cross(d).Len2();
    Approx.MulPositive(k, k);
    Approx.MulPositive(k * k, up.Cross(d).Len2());
    var x := u.Normalize(isqrt);
    assert x.Len2() == 1.0;
    var m := LookAt(origin, target, up, isqrt);
    assert Vector3.FromVec4(m.r0) == x;
    assert Vector3.FromVec4(m.r2) == z;
    var w := z.Cross(x);
    Vector3.CrossLen2(z, x);
    Vector3.DotCommutes(z, x);
    assert z.Dot(x) == 0.0;
    assert w.Len2() == 1.0;
    assert Vector3.FromVec4(m.r1) == w.Normalize(isqrt);
  }

  /** Squared length of a cross product whose right operand is scaled by
      `k`: it grows by `k * k`. */
  lemma CrossOfScaledLen2(a: Vector3.Vec3, b: Vector3.Vec3, k: real)
    ensures a.Cross(b.Scale(k)).Len2() == k * k * a.Cross(b).Len2()
  {
    Vector3.CrossScales(a, b, k);
    assert a.Cross(b.Scale(k)) == a.Cross(b).Scale(k);
    Vector3.ScaledLen2(a.Cross(b), k);
  }

  // ---------------------------------------------------------------------
  // Projections send their viewing volume to the unit box

  /** The near-bottom-left corner of the box goes to (-1, -1, -1) and the
      far-top-right corner to (1, 1, 1), with w staying 1. */
  lemma OrthographicCorners(left: real, right: real, bottom: real, top: real,
                            near: real, far: real)
    requires left != right && bottom != top && near != far
    ensures Transform(Vec4(left, bottom, -near, 1.0),
                      Orthographic(left, right, bottom, top, near, far))
         == Vec4(-1.0, -1.0, -1.0, 1.0)
    ensures Transform(Vec4(right, top, -far, 1.0),
                      Orthographic(left, right, bottom, top, near, far))
         == Vec4(1.0, 1.0, 1.0, 1.0)
  {
  }

  /** The near-bottom-left corner goes to (-n, -n, -n, n) and the
      far-top-right corner, the near one pushed out to distance `far`, to
      (f, f, f, f): after the divide by w, (-1, -1, -1) and (1, 1, 1). */
  lemma FrustumCorners(left: real, right: real, bottom: real, top: real,
                       near: real, far: real)
    requires left != right && bottom != top && near != far && near != 0.0
    ensures Transform(Vec4(left, bottom, -near, 1.0),
                      Frustum(left, right, bottom, top, near, far))
         == Vec4(-near, -near, -near, near)
    ensures Transform(Vec4(right * far / near, top * far / near, -far, 1.0),
                      Frustum(left, right, bottom, top, near, far))
         == Vec4(far, far, far, far)
  {
  }

  /** Whatever x and y are, a point at distance `near` gets depth -w with
      w = near, and one at distance `far` gets depth w with w = far: after
      the divide, -1 and 1. */
  lemma FrustumDepth(left: real, right: real, bottom: real, top: real,
                     near: real, far: real, x: real, y: real)
    requires left != right && bottom != top && near != far
    ensures var p := Transform(Vec4(x, y, -near, 1.0), Frustum(left, right, bottom, top, near, far));
      p.w == near && p.z == -near
    ensures var p := Transform(Vec4(x, y, -far, 1.0), Frustum(left, right, bottom, top, near, far));
      p.w == far && p.z == far
  {
    FrustumDepthOf(left, right, bottom, top, near, far, x, y, near);
    FrustumDepthOf(left, right, bottom, top, near, far, x, y, far);
  }

  /** One point at distance `d`, `near` or `far`. */
  lemma FrustumDepthOf(left: real, right: real, bottom: real, top: real,
                       near: real, far: real, x: real, y: real, d: real)
    requires left != right && bottom != top && near != far && (d == near || d == far)
    ensures var p := Transform(Vec4(x, y, -d, 1.0), Frustum(left, right, bottom, top, near, far));
      p.w == d && p.z == (if d == near then -near else far)
  {
    var f := Frustum(left, right, bottom, top, near, far);
    var dz := far - near;
    var p := Transform(Vec4(x, y, -d, 1.0), f);
    assert f.r0.z == 0.0 && f.r1.z == 0.0 && f.r0.w == 0.0 && f.r1.w == 0.0;
    assert f.r2.w == -1.0 && f.r3.w == 0.0;
    assert f.r2.z == -(far + near) / dz && f.r3.z == -2.0 * near * far / dz;
    assert p.z == -d * f.r2.z + 1.0 * f.r3.z;
    FrustumDepthAt(near, far, d);
  }

  /** The depth column of the frustum matrix at distance `d`: near maps to
      -near and far to far. */
  lemma FrustumDepthAt(near: real, far: real, d: real)
    requires near != far && (d == near || d == far)
    ensures var dz := far - near;
      -d * (-(far + near) / dz) + 1.0 * (-2.0 * near * far / dz)
        == (if d == near then -near else far)
  {
    var dz := far - near;
    assert -d * (-(far + near) / dz) == d * (far + near) / dz;
    assert d * (far + near) / dz + -2.0 * near * far / dz == (d * (far + near) - 2.0 * near * far) / dz;
    if d == near {
      assert d * (far + near) - 2.0 * near * far == -near * dz;
    } else {
      assert d * (far + near) - 2.0 * near * far == far * dz;
    }
  }

  /** A point at distance `near` gets depth -w and w = near; one at
      distance `far` gets depth w and w = far: after the divide, -1 and 1.
      Whatever x and y are, w is the distance. */
  lemma PerspectiveDepth(focal: real, aspect: real, near: real, far: real, x: real, y: real)
    requires aspect != 0.0 && near != far
    ensures var p := Transform(Vec4(x, y, -near, 1.0), Perspective(focal, aspect, near, far));
      p.w == near && p.z == -near
    ensures var p := Transform(Vec4(x, y, -far, 1.0), Perspective(focal, aspect, near, far));
      p.w == far && p.z == far
  {
  }

  /** The top-right corner of the near face, `near / focal` up and
      `aspect` times that across, goes to (1, 1, -1) after the divide. */
  lemma PerspectiveCorner(focal: real, aspect: real, near: real, far: real)
    requires aspect != 0.0 && near != far && focal != 0.0
    ensures Transform(Vec4(near * aspect / focal, near / focal, -near, 1.0),
                      Perspective(focal, aspect, near, far))
         == Vec4(near, near, -near, near)
  {
  }

  // ---------------------------------------------------------------------
  // Equality of the canonical copy

  lemma ApproxEqReflexiveSymmetric(a: Mat4, b: Mat4)
    ensures a.ApproxEq(a)
    ensures a.ApproxEq(b) <==> b.ApproxEq(a)
  {
  }

  /** Closeness of matrices is not transitive either: three matrices 0.01
      apart in one entry. */
  lemma ApproxEqNotTransitive()
    ensures exists a: Mat4, b: Mat4, c: Mat4 ::
      a.ApproxEq(b) && b.ApproxEq(c) && !a.ApproxEq(c)
  {
    var a := Identity();
    var b := Mat4(Vec4(1.01, 0.0, 0.0, 0.0), a.r1, a.r2, a.r3);
    var c := Mat4(Vec4(1.02, 0.0, 0.0, 0.0), a.r1, a.r2, a.r3);
    assert a.ApproxEq(b) && b.ApproxEq(c) && !a.ApproxEq(c);
  }
}
