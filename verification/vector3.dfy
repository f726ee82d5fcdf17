/** Three-component vectors: points and directions in space, with the cross
    and dot products used to build camera bases. */
module Vector3 {
  import opened Approx
  import Vector4

  /** The tuple fields `.0 .. .2` of the program are named x, y, z. */
  datatype Vec3 = Vec3(x: real, y: real, z: real) {

    function Add(rhs: Vec3): Vec3 {
      Vec3(x + rhs.x, y + rhs.y, z + rhs.z)
    }

    function Sub(rhs: Vec3): Vec3 {
      Vec3(x - rhs.x, y - rhs.y, z - rhs.z)
    }

    /** Multiplication by a scalar. */
    function Scale(k: real): Vec3 {
      Vec3(x * k, y * k, z * k)
    }

    /** Division by a scalar; a zero divisor yields infinities in the
        program and is excluded here. */
    function Div(k: real): Vec3
      requires k != 0.0
    {
      Vec3(x / k, y / k, z / k)
    }

    /** Inner product. */
    function Dot(rhs: Vec3): real {
      x * rhs.x + y * rhs.y + z * rhs.z
    }

    /** Right-handed cross product: the result is orthogonal to both
        operands. */
    function Cross(rhs: Vec3): Vec3 {
      Vec3(y * rhs.z - z * rhs.y, z * rhs.x - x * rhs.z, x * rhs.y - y * rhs.x)
    }

    /** Squared length: the vector's inner product with itself, never
        negative. */
    function Len2(): (r: real)
      ensures r == Dot(this)
      ensures r >= 0.0
    {
      SquareNonNegative(x);
      SquareNonNegative(y);
      SquareNonNegative(z);
      x * x + y * y + z * z
    }

    /** Length, through the square root the caller supplies; with an exact
        square root it is the non-negative root of the squared length. */
    function Len(sqrt: real -> real): (r: real)
      ensures IsExactSqrt(sqrt) ==> r >= 0.0 && r * r == Len2()
    {
      sqrt(Len2())
    }

    /** Normalisation multiplies all three components by the one factor
        `isqrt(Len2())`; with an exact `isqrt` a vector of positive length
        comes out with unit length. */
    function Normalize(isqrt: real -> real): (r: Vec3)
      ensures r == Scale(isqrt(Len2()))
      ensures IsExactInvSqrt(isqrt) && Len2() > 0.0 ==> r.Len2() == 1.0
    {
      var k := isqrt(Len2());
      ScaledLen2(this, k);
      Vec3(x * k, y * k, z * k)
    }

    /** Equality: every component pair is within the tolerance. */
    predicate ApproxEq(rhs: Vec3) {
      Approx.ApproxEq(x, rhs.x) && Approx.ApproxEq(y, rhs.y) && Approx.ApproxEq(z, rhs.z)
    }
  }

  function Zero(): Vec3 {
    Vec3(0.0, 0.0, 0.0)
  }

  /** Projection of a four-component vector: the w component is dropped,
      with no perspective divide, so the squared length loses exactly
      `w * w`. */
  function FromVec4(v: Vector4.Vec4): (r: Vec3)
    ensures r.Len2() + v.w * v.w == v.Len2()
  {
    Vec3(v.x, v.y, v.z)
  }

  /** Lifting to a homogeneous point: w is fixed to 1, and projecting back
      gives the original vector. */
  function ToVec4(v: Vec3): (r: Vector4.Vec4)
    ensures r.w == 1.0
    ensures FromVec4(r) == v
  {
    Vector4.Vec4(v.x, v.y, v.z, 1.0)
  }

  /** Projecting and lifting again is the identity exactly on the vectors
      whose w is 1. */
  lemma ProjectThenLift(v: Vector4.Vec4)
    ensures ToVec4(FromVec4(v)) == v <==> v.w == 1.0
  {
  }

  /** Scaling by `k` multiplies the squared length by `k * k`. */
  lemma ScaledLen2(v: Vec3, k: real)
    ensures v.Scale(k).Len2() == k * k * v.Len2()
  {
  }

  lemma AddCommutes(a: Vec3, b: Vec3)
    ensures a.Add(b) == b.Add(a)
  {
  }

  /** Subtracting what was added gives the original vector back. */
  lemma AddThenSub(a: Vec3, b: Vec3)
    ensures a.Add(b).Sub(b) == a
  {
  }

  /** Dividing by the factor just multiplied by gives the original vector
      back. */
  lemma ScaleThenDiv(v: Vec3, k: real)
    requires k != 0.0
    ensures v.Scale(k).Div(k) == v
  {
  }

  lemma DotCommutes(a: Vec3, b: Vec3)
    ensures a.Dot(b) == b.Dot(a)
  {
  }

  /** A scalar factor comes out of either side of the inner product. */
  lemma DotScale(a: Vec3, b: Vec3, k: real)
    ensures a.Scale(k).Dot(b) == k * a.Dot(b)
    ensures a.Dot(b.Scale(k)) == k * a.Dot(b)
  {
  }

  /** The cross product is orthogonal to both of its operands. */
  lemma CrossOrthogonal(a: Vec3, b: Vec3)
    ensures a.Cross(b).Dot(a) == 0.0
    ensures a.Cross(b).Dot(b) == 0.0
  {
  }

  /** Scaling the right operand of a cross product scales the product. */
  lemma CrossScales(a: Vec3, b: Vec3, k: real)
    ensures a.Cross(b.Scale(k)).x == a.Cross(b).x * k
    ensures a.Cross(b.Scale(k)).y == a.Cross(b).y * k
    ensures a.Cross(b.Scale(k)).z == a.Cross(b).z * k
  {
    ScaledMinor(a.y, a.z, b.z, b.y, k);
    ScaledMinor(a.z, a.x, b.x, b.z, k);
    ScaledMinor(a.x, a.y, b.y, b.x, k);
  }

  /** One component of the cross product with the right operand scaled. */
  lemma ScaledMinor(p: real, q: real, r: real, t: real, k: real)
    ensures p * (r * k) - q * (t * k) == (p * r - q * t) * k
  {
  }

  /** Lagrange's identity: the squared length of a cross product is the
      product of the squared lengths less the squared inner product.  For
      two orthogonal unit vectors the cross product is a unit vector. */
  lemma CrossLen2(a: Vec3, b: Vec3)
    ensures a.Cross(b).Len2() == a.Len2() * b.Len2() - a.Dot(b) * a.Dot(b)
  {
  }

  /** Swapping the operands of the cross product negates it, so the cross
      product of a vector with itself is zero. */
  lemma CrossAnticommutes(a: Vec3, b: Vec3)
    ensures a.Cross(b) == b.Cross(a).Scale(-1.0)
    ensures a.Cross(a) == Zero()
  {
  }

  /** The equality is reflexive and symmetric. */
  lemma ApproxEqReflexiveSymmetric(a: Vec3, b: Vec3)
    ensures a.ApproxEq(a)
    ensures a.ApproxEq(b) <==> b.ApproxEq(a)
  {
  }
}
