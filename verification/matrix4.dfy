/** 4x4 matrices of the canonical copy: four `Vec4` rows, the constructors
    of the usual view and projection transforms, the row-major product and
    transpose, and the fused "multiply on the left by a basis matrix"
    operations.

    Points are row vectors multiplied on the left, `v·M`: a homogeneous
    point is `(x, y, z, 1)`, and row 3 of a transform holds its
    translation.  The sine and cosine of an angle are taken by the program
    from an `f32` angle; here the pair is passed in as an `Angle`. */
module Matrix4 {
  import opened Vector4
  import Vector3
  import Approx

  /** The sine and cosine of a rotation angle. */
  datatype Angle = Angle(sin: real, cos: real) {
    /** The pair lies on the unit circle, as a true sine and cosine do. */
    predicate IsUnit() {
      sin * sin + cos * cos == 1.0
    }

    /** The opposite angle: the sine changes sign, the cosine does not. */
    function Neg(): Angle {
      Angle(-sin, cos)
    }
  }

  /** The tuple fields `.0 .. .3` of the program are named r0 .. r3. */
  datatype Mat4 = Mat4(r0: Vec4, r1: Vec4, r2: Vec4, r3: Vec4) {
    /** Row by position. */
    function Row(i: nat): Vec4
      requires i < 4
    {
      if i == 0 then r0 else if i == 1 then r1 else if i == 2 then r2 else r3
    }

    /** Entry in row `i`, column `j`. */
    function At(i: nat, j: nat): real
      requires i < 4 && j < 4
    {
      Row(i).At(j)
    }

    /** Equality of the canonical copy: every row pair is approximately
        equal, component by component. */
    predicate ApproxEq(rhs: Mat4) {
      r0.ApproxEq(rhs.r0) && r1.ApproxEq(rhs.r1) && r2.ApproxEq(rhs.r2) && r3.ApproxEq(rhs.r3)
    }
  }

  /** The row vector `v` multiplied by `m`: component j is the sum over k
      of `v[k] * m[k][j]`. */
  function Transform(v: Vec4, m: Mat4): Vec4 {
    Vec4(
      v.x * m.r0.x + v.y * m.r1.x + v.z * m.r2.x + v.w * m.r3.x,
      v.x * m.r0.y + v.y * m.r1.y + v.z * m.r2.y + v.w * m.r3.y,
      v.x * m.r0.z + v.y * m.r1.z + v.z * m.r2.z + v.w * m.r3.z,
      v.x * m.r0.w + v.y * m.r1.w + v.z * m.r2.w + v.w * m.r3.w)
  }

  // ---------------------------------------------------------------------
  // Constructors

  /** The identity: every vector is its own image, and it is its own
      transpose. */
  function Identity(): (r: Mat4)
    ensures forall v: Vec4 :: Transform(v, r) == v
    ensures Transpose(r) == r
  {
    Mat4(
      Vec4(1.0, 0.0, 0.0, 0.0),
      Vec4(0.0, 1.0, 0.0, 0.0),
      Vec4(0.0, 0.0, 1.0, 0.0),
      Vec4(0.0, 0.0, 0.0, 1.0))
  }

  /** Identity with the offset `t` in row 3: every point moves by `t`, and
      directions stay where they are. */
  function Translation(t: Vector3.Vec3): (r: Mat4)
    ensures r.r0 == Identity().r0 && r.r1 == Identity().r1 && r.r2 == Identity().r2
    ensures r.r3 == Vector3.ToVec4(t)
    ensures forall p: Vector3.Vec3 :: Transform(Vector3.ToVec4(p), r) == Vector3.ToVec4(p.Add(t))
  {
    Mat4(
      Vec4(1.0, 0.0, 0.0, 0.0),
      Vec4(0.0, 1.0, 0.0, 0.0),
      Vec4(0.0, 0.0, 1.0, 0.0),
      Vec4(t.x, t.y, t.z, 1.0))
  }

  /** Camera basis placed at `origin` looking at `target`: row 2 points
      from the target back to the origin, row 0 is `up` crossed with it,
      row 1 completes the basis, and row 3 is the origin.  Each of the
      three directions is normalised with `isqrt`.  Whatever `isqrt`
      returns, the three direction rows are pairwise orthogonal. */
  function LookAt(origin: Vector3.Vec3, target: Vector3.Vec3, up: Vector3.Vec3,
                  isqrt: real -> real): (r: Mat4)
    ensures Vector3.FromVec4(r.r0).Dot(Vector3.FromVec4(r.r1)) == 0.0
    ensures Vector3.FromVec4(r.r0).Dot(Vector3.FromVec4(r.r2)) == 0.0
    ensures Vector3.FromVec4(r.r1).Dot(Vector3.FromVec4(r.r2)) == 0.0
    ensures r.r3 == Vector3.ToVec4(origin)
    ensures r.r0.w == 0.0 && r.r1.w == 0.0 && r.r2.w == 0.0 && r.r3.w == 1.0
  {
    var z := origin.Sub(target).Normalize(isqrt);
    var x := up.Cross(z).Normalize(isqrt);
    var y := z.Cross(x).Normalize(isqrt);
    Vector3.CrossOrthogonal(up, z);
    LookAtOrthogonal(z, up.Cross(z), isqrt(up.Cross(z).Len2()), isqrt(z.Cross(x).Len2()));
    Mat4(
      Vec4(x.x, x.y, x.z, 0.0),
      Vec4(y.x, y.y, y.z, 0.0),
      Vec4(z.x, z.y, z.z, 0.0),
      Vec4(origin.x, origin.y, origin.z, 1.0))
  }

  /** Scaling `u` (orthogonal to `z`) and the cross product `z × x` keeps
      all three pairwise orthogonal. */
  lemma LookAtOrthogonal(z: Vector3.Vec3, u: Vector3.Vec3, kx: real, ky: real)
    requires u.Dot(z) == 0.0
    ensures var x := u.Scale(kx);
      var y := z.Cross(x).Scale(ky);
      x.Dot(y) == 0.0 && x.Dot(z) == 0.0 && y.Dot(z) == 0.0
  {
    var x := u.Scale(kx);
    var c := z.Cross(x);
    Vector3.CrossOrthogonal(z, x);
    Vector3.DotScale(u, z, kx);
    Vector3.DotScale(c, x, ky);
    Vector3.DotScale(c, z, ky);
    Vector3.DotCommutes(c.Scale(ky), x);
  }

  /** Perspective projection.  `focal` is the cotangent of half the
      vertical field of view, which the program computes from the angle;
      `near` and `far` are distances along the negative z axis. */
  function Perspective(focal: real, aspect: real, near: real, far: real): (r: Mat4)
    requires aspect != 0.0 && near != far
    ensures r.r0 == Vec4(focal / aspect, 0.0, 0.0, 0.0) && r.r1 == Vec4(0.0, focal, 0.0, 0.0)
    ensures r.r2.w == -1.0 && r.r3.w == 0.0
  {
    var rn := 1.0 / (near - far);
    Mat4(
      Vec4(focal / aspect, 0.0, 0.0, 0.0),
      Vec4(0.0, focal, 0.0, 0.0),
      Vec4(0.0, 0.0, (near + far) * rn, -1.0),
      Vec4(0.0, 0.0, 2.0 * near * far * rn, 0.0))
  }

  /** Orthographic projection of the box `[left, right] × [bottom, top]`
      between the distances `near` and `far` along the negative z axis. */
  function Orthographic(left: real, right: real, bottom: real, top: real,
                        near: real, far: real): (r: Mat4)
    requires left != right && bottom != top && near != far
    ensures r.r0.w == 0.0 && r.r1.w == 0.0 && r.r2.w == 0.0 && r.r3.w == 1.0
  {
    Mat4(
      Vec4(2.0 / (right - left), 0.0, 0.0, 0.0),
      Vec4(0.0, 2.0 / (top - bottom), 0.0, 0.0),
      Vec4(0.0, 0.0, 2.0 / (near - far), 0.0),
      Vec4((left + right) / (left - right), (bottom + top) / (bottom - top),
           (near + far) / (near - far), 1.0))
  }

  /** Perspective projection of the frustum whose near face is
      `[left, right] × [bottom, top]` at distance `near`. */
  function Frustum(left: real, right: real, bottom: real, top: real,
                   near: real, far: real): (r: Mat4)
    requires left != right && bottom != top && near != far
    ensures r.r2.w == -1.0 && r.r0.w == 0.0 && r.r1.w == 0.0 && r.r3.w == 0.0
  {
    var dx := right - left;
    var dy := top - bottom;
    var dz := far - near;
    Mat4(
      Vec4(2.0 * near / dx, 0.0, 0.0, 0.0),
      Vec4(0.0, 2.0 * near / dy, 0.0, 0.0),
      Vec4((left + right) / dx, (top + bottom) / dy, -(far + near) / dz, -1.0),
      Vec4(0.0, 0.0, -2.0 * near * far / dz, 0.0))
  }

  function XRotation(a: Angle): (r: Mat4)
    ensures r.At(1, 2) == a.sin && r.At(2, 1) == -a.sin
    ensures r.At(1, 1) == a.cos && r.At(2, 2) == a.cos
    ensures r.r0 == Identity().r0 && r.r3 == Identity().r3
  {
    Mat4(
      Vec4(1.0, 0.0, 0.0, 0.0),
      Vec4(0.0, a.cos, a.sin, 0.0),
      Vec4(0.0, -a.sin, a.cos, 0.0),
      Vec4(0.0, 0.0, 0.0, 1.0))
  }

  function YRotation(a: Angle): (r: Mat4)
    ensures r.At(0, 2) == -a.sin && r.At(2, 0) == a.sin
    ensures r.At(0, 0) == a.cos && r.At(2, 2) == a.cos
    ensures r.r1 == Identity().r1 && r.r3 == Identity().r3
  {
    Mat4(
      Vec4(a.cos, 0.0, -a.sin, 0.0),
      Vec4(0.0, 1.0, 0.0, 0.0),
      Vec4(a.sin, 0.0, a.cos, 0.0),
      Vec4(0.0, 0.0, 0.0, 1.0))
  }

  function ZRotation(a: Angle): (r: Mat4)
    ensures r.At(0, 1) == a.sin && r.At(1, 0) == -a.sin
    ensures r.At(0, 0) == a.cos && r.At(1, 1) == a.cos
    ensures r.r2 == Identity().r2 && r.r3 == Identity().r3
  {
    Mat4(
      Vec4(a.cos, a.sin, 0.0, 0.0),
      Vec4(-a.sin, a.cos, 0.0, 0.0),
      Vec4(0.0, 0.0, 1.0, 0.0),
      Vec4(0.0, 0.0, 0.0, 1.0))
  }

  /** The 3x3 rotation about `axis` (Rodrigues' formula) in the upper-left
      block, with a zero fourth row and column.  The axis is assumed to be
      of unit length by the callers; nothing checks it. */
  function AxisBasis(axis: Vector3.Vec3, a: Angle): Mat4 {
    var x, y, z := axis.x, axis.y, axis.z;
    var xx, yy, zz := x * x, y * y, z * z;
    var p := 1.0 - a.cos;
    Mat4(
      Vec4(xx + (1.0 - xx) * a.cos, x * y * p + z * a.sin, x * z * p - y * a.sin, 0.0),
      Vec4(x * y * p - z * a.sin, yy + (1.0 - yy) * a.cos, y * z * p + x * a.sin, 0.0),
      Vec4(x * z * p + y * a.sin, y * z * p - x * a.sin, zz + (1.0 - zz) * a.cos, 0.0),
      Vec4(0.0, 0.0, 0.0, 0.0))
  }

  /** Rotation about an arbitrary axis: the Rodrigues block, completed with
      the unit fourth row.  It acts on directions only (fourth row and
      column those of the identity), and the zero angle turns nothing,
      whatever the axis. */
  function AxisRotation(axis: Vector3.Vec3, a: Angle): (r: Mat4)
    ensures r.r3 == Identity().r3 && r.r0.w == 0.0 && r.r1.w == 0.0 && r.r2.w == 0.0
    ensures a == Angle(0.0, 1.0) ==> r == Identity()
  {
    var b := AxisBasis(axis, a);
    Mat4(b.r0, b.r1, b.r2, Vec4(0.0, 0.0, 0.0, 1.0))
  }

  // ---------------------------------------------------------------------
  // Product and transpose

  /** Row-major matrix product: entry (i, j) is the sum over k of
      `a[i][k] * b[k][j]`, so row i of the result is row i of `a`
      transformed by `b`. */
  function Dot(a: Mat4, b: Mat4): Mat4 {
    Mat4(Transform(a.r0, b), Transform(a.r1, b), Transform(a.r2, b), Transform(a.r3, b))
  }

  /** Rows become columns: entry (i, j) of the result is entry (j, i) of
      `m`. */
  function Transpose(m: Mat4): (r: Mat4)
    ensures forall i: nat, j: nat | i < 4 && j < 4 :: r.At(i, j) == m.At(j, i)
  {
    Mat4(
      Vec4(m.r0.x, m.r1.x, m.r2.x, m.r3.x),
      Vec4(m.r0.y, m.r1.y, m.r2.y, m.r3.y),
      Vec4(m.r0.z, m.r1.z, m.r2.z, m.r3.z),
      Vec4(m.r0.w, m.r1.w, m.r2.w, m.r3.w))
  }

  // ---------------------------------------------------------------------
  // Fused operations: each stands for the product with a basis matrix on
  // the left, written out so that only the rows that change are
  // recomputed.  That each one equals the product is proved in
  // `Matrix4Laws`.

  function Translate(m: Mat4, t: Vector3.Vec3): (r: Mat4)
    ensures r.r0 == m.r0 && r.r1 == m.r1 && r.r2 == m.r2
  {
    Mat4(m.r0, m.r1, m.r2,
      Vec4(
        m.r0.x * t.x + m.r1.x * t.y + m.r2.x * t.z + m.r3.x,
        m.r0.y * t.x + m.r1.y * t.y + m.r2.y * t.z + m.r3.y,
        m.r0.z * t.x + m.r1.z * t.y + m.r2.z * t.z + m.r3.z,
        m.r0.w * t.x + m.r1.w * t.y + m.r2.w * t.z + m.r3.w))
  }

  function XRotate(m: Mat4, a: Angle): (r: Mat4)
    ensures r.r0 == m.r0 && r.r3 == m.r3
  {
    Mat4(m.r0, MixAdd(m.r1, m.r2, a.cos, a.sin), MixSub(m.r2, m.r1, a.cos, a.sin), m.r3)
  }

  function YRotate(m: Mat4, a: Angle): (r: Mat4)
    ensures r.r1 == m.r1 && r.r3 == m.r3
  {
    Mat4(MixSub(m.r0, m.r2, a.cos, a.sin), m.r1, MixAdd(m.r0, m.r2, a.sin, a.cos), m.r3)
  }

  function ZRotate(m: Mat4, a: Angle): (r: Mat4)
    ensures r.r2 == m.r2 && r.r3 == m.r3
  {
    Mat4(MixAdd(m.r0, m.r1, a.cos, a.sin), MixSub(m.r1, m.r0, a.cos, a.sin), m.r2, m.r3)
  }

  /** The row `c * p + s * q`, component by component, as the fused
      rotations write their changed rows. */
  function MixAdd(p: Vec4, q: Vec4, c: real, s: real): Vec4 {
    Vec4(c * p.x + s * q.x, c * p.y + s * q.y, c * p.z + s * q.z, c * p.w + s * q.w)
  }

  /** The row `c * p - s * q`, component by component. */
  function MixSub(p: Vec4, q: Vec4, c: real, s: real): Vec4 {
    Vec4(c * p.x - s * q.x, c * p.y - s * q.y, c * p.z - s * q.z, c * p.w - s * q.w)
  }

  /** Rows 0 to 2 are combined through the Rodrigues block, whose zero
      fourth column means row 3 of `m` never contributes; row 3 is copied. */
  function AxisRotate(m: Mat4, axis: Vector3.Vec3, a: Angle): (r: Mat4)
    ensures r.r3 == m.r3
  {
    CombineRows(AxisBasis(axis, a), m)
  }

  /** Rows 0 to 2 of `b·m` computed from the first three columns of `b`
      only, with row 3 of `m` kept. */
  function CombineRows(b: Mat4, m: Mat4): (r: Mat4)
    ensures r.r3 == m.r3
  {
    Mat4(Combine3(b.r0, m), Combine3(b.r1, m), Combine3(b.r2, m), m.r3)
  }

  /** Rows 0 to 2 of `m` weighted by the first three components of `u`. */
  function Combine3(u: Vec4, m: Mat4): Vec4 {
    Vec4(u.x * m.r0.x + u.y * m.r1.x + u.z * m.r2.x,
         u.x * m.r0.y + u.y * m.r1.y + u.z * m.r2.y,
         u.x * m.r0.z + u.y * m.r1.z + u.z * m.r2.z,
         u.x * m.r0.w + u.y * m.r1.w + u.z * m.r2.w)
  }
}
