/** Four-component vectors: homogeneous points and directions, and the rows
    of a 4x4 matrix.  The arithmetic is the same in both copies of the
    program's vector type; this module also holds the approximate equality,
    squared length, length and normalisation of the canonical copy. */
module Vector4 {
  import opened Approx

  /** The tuple fields `.0 .. .3` of the program are named x, y, z, w. */
  datatype Vec4 = Vec4(x: real, y: real, z: real, w: real) {

    /** Component by position, 0 = x through 3 = w. */
    function At(i: nat): real
      requires i < 4
    {
      if i == 0 then x else if i == 1 then y else if i == 2 then z else w
    }

    function Add(rhs: Vec4): Vec4 {
      Vec4(x + rhs.x, y + rhs.y, z + rhs.z, w + rhs.w)
    }

    function Sub(rhs: Vec4): Vec4 {
      Vec4(x - rhs.x, y - rhs.y, z - rhs.z, w - rhs.w)
    }

    /** Multiplication by a scalar. */
    function Scale(k: real): Vec4 {
      Vec4(x * k, y * k, z * k, w * k)
    }

    /** Division by a scalar; a zero divisor yields infinities in the
        program and is excluded here. */
    function Div(k: real): Vec4
      requires k != 0.0
    {
      Vec4(x / k, y / k, z / k, w / k)
    }

    /** Squared length, the sum of the four squares; never negative. */
    function Len2(): (r: real)
      ensures r >= 0.0
    {
      SquareNonNegative(x);
      SquareNonNegative(y);
      SquareNonNegative(z);
      SquareNonNegative(w);
      x * x + y * y + z * z + w * w
    }

    /** Length, computed as the reciprocal of the fast reciprocal square
        root of the squared length rather than with a square root. */
    function Len(isqrt: real -> real): (r: real)
      requires isqrt(Len2()) != 0.0
      ensures r == ASqrt(Len2(), isqrt)
      ensures IsExactInvSqrt(isqrt) && Len2() > 0.0 ==> r > 0.0 && r * r == Len2()
    {
      1.0 / isqrt(Len2())
    }

    /** Normalisation multiplies all four components by the one factor
        `isqrt(Len2())`; with an exact `isqrt` a non-zero vector comes out
        with unit length. */
    function Normalize(isqrt: real -> real): (r: Vec4)
      ensures r == Scale(isqrt(Len2()))
      ensures (x == 0.0 ==> r.x == 0.0) && (y == 0.0 ==> r.y == 0.0)
      ensures (z == 0.0 ==> r.z == 0.0) && (w == 0.0 ==> r.w == 0.0)
      ensures IsExactInvSqrt(isqrt) && Len2() > 0.0 ==> r.Len2() == 1.0
    {
      var k := isqrt(Len2());
      var r := Vec4(x * k, y * k, z * k, w * k);
      ScaledLen2(this, k);
      r
    }

    /** Equality of the canonical copy: every component pair is within
        the tolerance. */
    predicate ApproxEq(rhs: Vec4) {
      Approx.ApproxEq(x, rhs.x) && Approx.ApproxEq(y, rhs.y)
      && Approx.ApproxEq(z, rhs.z) && Approx.ApproxEq(w, rhs.w)
    }
  }

  function Zero(): Vec4 {
    Vec4(0.0, 0.0, 0.0, 0.0)
  }

  /** Scaling by `k` multiplies the squared length by `k * k`. */
  lemma ScaledLen2(v: Vec4, k: real)
    ensures v.Scale(k).Len2() == k * k * v.Len2()
  {
  }

  /** Addition is componentwise, so it commutes. */
  lemma AddCommutes(a: Vec4, b: Vec4)
    ensures a.Add(b) == b.Add(a)
  {
  }

  /** Subtracting what was added gives the original vector back. */
  lemma AddThenSub(a: Vec4, b: Vec4)
    ensures a.Add(b).Sub(b) == a
  {
  }

  /** Adding back what was subtracted gives the original vector back. */
  lemma SubThenAdd(a: Vec4, b: Vec4)
    ensures a.Sub(b).Add(b) == a
  {
  }

  /** Dividing by the factor just multiplied by gives the original vector
      back. */
  lemma ScaleThenDiv(v: Vec4, k: real)
    requires k != 0.0
    ensures v.Scale(k).Div(k) == v
  {
  }

  /** The canonical equality is reflexive and symmetric. */
  lemma ApproxEqReflexiveSymmetric(a: Vec4, b: Vec4)
    ensures a.ApproxEq(a)
    ensures a.ApproxEq(b) <==> b.ApproxEq(a)
  {
  }

  /** ... but not transitive: three vectors 0.01 apart in x only. */
  lemma ApproxEqNotTransitive()
    ensures exists a: Vec4, b: Vec4, c: Vec4 ::
      a.ApproxEq(b) && b.ApproxEq(c) && !a.ApproxEq(c)
  {
    var a := Zero();
    var b := Vec4(0.01, 0.0, 0.0, 0.0);
    var c := Vec4(0.02, 0.0, 0.0, 0.0);
    assert a.ApproxEq(b) && b.ApproxEq(c) && !a.ApproxEq(c);
  }
}
