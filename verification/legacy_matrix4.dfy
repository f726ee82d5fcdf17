/** The older copy of the 4x4 matrix.  Its constructors, product,
    transpose and `translate` are written exactly as in the canonical copy
    (no rotations), so they are the functions of `Matrix4`; what differs
    is that equality is exact, through the exact equality of the older
    vector copy. */
module LegacyMatrix4 {
  import opened Vector4
  import Vector3
  import LegacyVector4
  import opened Matrix4
  import Matrix4Laws

  /** Exact equality: every row pair is exactly equal. */
  predicate Eq(lhs: Mat4, rhs: Mat4) {
    LegacyVector4.Eq(lhs.r0, rhs.r0) && LegacyVector4.Eq(lhs.r1, rhs.r1)
    && LegacyVector4.Eq(lhs.r2, rhs.r2) && LegacyVector4.Eq(lhs.r3, rhs.r3)
  }

  /** Exact equality of matrices is equality of values. */
  lemma EqIsEquality(a: Mat4, b: Mat4)
    ensures Eq(a, b) <==> a == b
  {
    LegacyVector4.EqIsEquality(a.r0, b.r0);
    LegacyVector4.EqIsEquality(a.r1, b.r1);
    LegacyVector4.EqIsEquality(a.r2, b.r2);
    LegacyVector4.EqIsEquality(a.r3, b.r3);
  }

  /** Unlike the tolerance-based equality of the canonical copy, it is an
      equivalence relation. */
  lemma EqIsEquivalence(a: Mat4, b: Mat4, c: Mat4)
    ensures Eq(a, a)
    ensures Eq(a, b) ==> Eq(b, a)
    ensures Eq(a, b) && Eq(b, c) ==> Eq(a, c)
  {
    EqIsEquality(a, a);
    EqIsEquality(a, b);
    EqIsEquality(b, a);
    EqIsEquality(b, c);
    EqIsEquality(a, c);
  }

  /** The identities of the product hold under the exact equality: the
      identity is a two-sided unit, transposing twice is the identity, and
      `translate` copies rows 0 to 2 and agrees with the product by the
      translation matrix on the left. */
  lemma ExactLaws(m: Mat4, t: Vector3.Vec3)
    ensures Eq(Dot(Identity(), m), m) && Eq(Dot(m, Identity()), m)
    ensures Eq(Transpose(Transpose(m)), m)
    ensures Eq(Translate(m, t), Dot(Translation(t), m))
    ensures LegacyVector4.Eq(Translate(m, t).r0, m.r0)
    ensures LegacyVector4.Eq(Translate(m, t).r1, m.r1)
    ensures LegacyVector4.Eq(Translate(m, t).r2, m.r2)
  {
    Matrix4Laws.IdentityIsUnit(m);
    Matrix4Laws.TransposeInvolution(m);
    Matrix4Laws.TranslateIsProduct(m, t);
    EqIsEquality(Dot(Identity(), m), m);
    EqIsEquality(Dot(m, Identity()), m);
    EqIsEquality(Transpose(Transpose(m)), m);
    EqIsEquality(Translate(m, t), Dot(Translation(t), m));
  }

  /** The matrix and offset of the program's own `translate` example. */
  function ExampleMatrix(): Mat4 {
    Mat4(Vec4(2.0, 4.0, 8.0, 16.0), Vec4(16.0, 2.0, 4.0, 8.0),
         Vec4(8.0, 16.0, 2.0, 4.0), Vec4(4.0, 8.0, 16.0, 2.0))
  }

  function ExampleOffset(): Vector3.Vec3 {
    Vector3.Vec3(2.3, 3.6, 1.8)
  }

  /** The expected result of that example, rounded to four decimals. */
  function ExampleExpected(): Mat4 {
    Mat4(Vec4(2.0, 4.0, 8.0, 16.0), Vec4(16.0, 2.0, 4.0, 8.0),
         Vec4(8.0, 16.0, 2.0, 4.0), Vec4(80.6, 53.1999, 52.3999, 74.7999))
  }

  /** Row 3 of the example is (80.6, 53.2, 52.4, 74.8); the rounded
      expectation 53.1999 differs from 53.2 by 0.0001, so under the exact
      equality of this copy the example's comparison is false. */
  lemma TranslateExampleNotExact()
    ensures Translate(ExampleMatrix(), ExampleOffset()).r3 == Vec4(80.6, 53.2, 52.4, 74.8)
    ensures !Eq(Translate(ExampleMatrix(), ExampleOffset()), ExampleExpected())
  {
  }

  /** Under the tolerance-based equality of the canonical copy, the same
      comparison holds. */
  lemma TranslateExampleApprox()
    ensures Translate(ExampleMatrix(), ExampleOffset()).ApproxEq(ExampleExpected())
  {
  }
}
