/** Scalar tolerance layer: absolute-tolerance equality and the square-root
    helpers built on the fast reciprocal square root.

    Every `f32` of the program is modelled as an exact `real`.  The fast
    reciprocal square root itself is bit-level float manipulation and is not
    modelled: operations that use it take it as a function parameter
    `isqrt`, and properties that need it to be exact say so through
    `IsExactInvSqrt`. */
module Approx {

  /** The fixed absolute tolerance of every approximate comparison. */
  const EPS: real := 0.01

  function Abs(a: real): real {
    if a < 0.0 then -a else a
  }

  /** `a` and `b` differ by at most `EPS`; the bound is inclusive and does
      not scale with the magnitude of the operands. */
  predicate ApproxEq(a: real, b: real) {
    Abs(a - b) <= EPS
  }

  /** An ideal reciprocal square root: what the fast approximation aims at. */
  ghost predicate IsExactInvSqrt(isqrt: real -> real) {
    forall y: real :: y > 0.0 ==> isqrt(y) > 0.0 && isqrt(y) * isqrt(y) * y == 1.0
  }

  /** An ideal square root on the non-negative reals. */
  ghost predicate IsExactSqrt(sqrt: real -> real) {
    forall y: real :: y >= 0.0 ==> sqrt(y) >= 0.0 && sqrt(y) * sqrt(y) == y
  }

  /** Approximate square root, the reciprocal of the fast reciprocal square
      root.  When `isqrt` is exact it is the true square root. */
  function ASqrt(x: real, isqrt: real -> real): (r: real)
    requires isqrt(x) != 0.0
    ensures r * isqrt(x) == 1.0
    ensures IsExactInvSqrt(isqrt) && x > 0.0 ==> r > 0.0 && r * r == x
  {
    ExactReciprocalSquares(x, isqrt);
    1.0 / isqrt(x)
  }

  /** With an exact `isqrt`, `1 / isqrt(x)` squares back to `x`. */
  lemma ExactReciprocalSquares(x: real, isqrt: real -> real)
    requires isqrt(x) != 0.0
    ensures IsExactInvSqrt(isqrt) && x > 0.0 ==>
      1.0 / isqrt(x) > 0.0 && (1.0 / isqrt(x)) * (1.0 / isqrt(x)) == x
  {
    if IsExactInvSqrt(isqrt) && x > 0.0 {
      var k := isqrt(x);
      var r := 1.0 / k;
      assert k > 0.0 && k * k * x == 1.0;
      assert r * k == 1.0;
      calc {
        r * r;
        r * r * (k * k * x);
        (r * k) * (r * k) * x;
      }
    }
  }

  lemma MulPositive(p: real, q: real)
    requires p > 0.0 && q > 0.0
    ensures p * q > 0.0
  {
  }

  /** A square is never negative. */
  lemma SquareNonNegative(a: real)
    ensures a * a >= 0.0
  {
    if a > 0.0 {
      MulPositive(a, a);
    } else if a < 0.0 {
      MulPositive(-a, -a);
      assert (-a) * (-a) == a * a;
    }
  }

  /** `ApproxEq` is reflexive. */
  lemma ApproxEqReflexive(a: real)
    ensures ApproxEq(a, a)
  {
  }

  /** `ApproxEq` is symmetric. */
  lemma ApproxEqSymmetric(a: real, b: real)
    ensures ApproxEq(a, b) <==> ApproxEq(b, a)
  {
  }

  /** The bound is inclusive and absolute: `a` is close to `a + d` exactly
      when `d` lies in `[-EPS, EPS]`, whatever `a` is. */
  lemma ApproxEqOffset(a: real, d: real)
    ensures ApproxEq(a, a + d) <==> -EPS <= d <= EPS
  {
  }

  /** Because the tolerance is absolute, closeness is not transitive:
      0 is close to 0.01 and 0.01 is close to 0.02, but 0 is not close
      to 0.02. */
  lemma ApproxEqNotTransitive()
    ensures exists a: real, b: real, c: real ::
      ApproxEq(a, b) && ApproxEq(b, c) && !ApproxEq(a, c)
  {
    assert ApproxEq(0.0, 0.01) && ApproxEq(0.01, 0.02) && !ApproxEq(0.0, 0.02);
  }
}
