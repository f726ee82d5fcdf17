# rusty math kernel in Dafny

A model of the 3D-math kernel of the `rusty` game engine: three- and
four-component vectors, 4x4 matrices with the usual view, projection and
rotation constructors, byte colours, and the absolute-tolerance equality that
the canonical types compare with. Every `f32` becomes an exact `real`, so the
identities the code relies on are stated and proved exactly.

The repository holds two copies of the vector and matrix types:

- The canonical copy (`src/core/`) compares with a tolerance. `Vec4`
  equality is componentwise `approx_eq`, and `Mat4` equality is rowwise
  `Vec4` equality.
- The older copy (`src/vec4.rs`, `src/mat4.rs`) compares exactly.

Their data and arithmetic are written identically, so each is defined once:

- `Vector4` models the vector arithmetic of both copies.
- `Matrix4` models the identity, translation, look_at, projections, `dot`,
  `transpose` and `translate` of both copies. The code of
  `src/mat4.rs:17-229` matches `src/core/mat4.rs:16-126, 201-305`. Only the
  doc comments differ, and the older `translate` spells rows 0-2 out
  component by component, which builds the same rows.
- `LegacyVector4` and `LegacyMatrix4` add what differs in the older copy:
  exact equality, and the compound assignments.

Modules, one file each:

- `Approx` (`approx.dfy`): `EPS`, `approx_eq`, and `asqrt` over a
  caller-supplied reciprocal square root `isqrt`. Exactness of `isqrt` is a
  predicate, `IsExactInvSqrt`, that properties assume explicitly.
- `Vector4` (`vector4.dfy`): `Vec4` arithmetic, `len2`, `len`, `normalize`
  and approximate equality.
- `LegacyVector4` (`legacy_vector4.dfy`): exact `Vec4` equality and the
  `+=`, `-=`, `*=`, `/=` forms.
- `Vector3` (`vector3.dfy`): `Vec3` arithmetic, `dot`, `cross`, `len2`,
  `len`, `normalize`, and the conversions to and from `Vec4`.
- `Colors` (`color.dfy`): `Color` and its conversions to and from `Vec4`,
  with Rust's saturating float-to-`u8` cast.
- `Matrix4` (`matrix4.dfy`): `Mat4`, all constructors, `dot`, `transpose`,
  and the fused `translate`, `x_rotate`, `y_rotate`, `z_rotate` and
  `axis_rotate`.
- `Matrix4Laws` (`matrix4_laws.dfy`): the matrix properties.
- `LegacyMatrix4` (`legacy_matrix4.dfy`): exact matrix equality.

Conventions:

- Points are row vectors multiplied on the left (`v·M`, the helper
  `Matrix4.Transform`).
- An angle is passed as its sine and cosine (`Matrix4.Angle`).
- The perspective constructor takes the cotangent of half the field of view
  (`focal`) where the program computes `tan(π/2 − fov/2)`.

## Model

| member | source | states |
|---|---|---|
| Approx.ApproxEqOffset | src/core/approx.rs:1-13 | `a` is close to `a + d` exactly when `-0.01 <= d <= 0.01`: the tolerance is absolute and the bound inclusive |
| Approx.ApproxEqReflexive | src/core/approx.rs:10-13 | every value is close to itself |
| Approx.ApproxEqSymmetric | src/core/approx.rs:10-13 | closeness does not depend on the order of the operands |
| Approx.ApproxEqNotTransitive | src/core/approx.rs:10-13 | there are a, b, c with a ≈ b and b ≈ c but not a ≈ c (0, 0.01, 0.02) |
| Approx.ASqrt | src/core/approx.rs:26-29 | `asqrt(x)` is the reciprocal of `isqrt(x)`; with an exact `isqrt` and `x > 0` it is the positive square root of `x` |
| Vector4.Vec4.Len2 | src/core/vec4.rs:112-116 | the squared length is never negative |
| Vector4.Vec4.Len | src/core/vec4.rs:118-122 | the length is `asqrt(len2)`, i.e. `1 / isqrt(len2)`, not a square root; with an exact `isqrt` it squares back to `len2` |
| Vector4.Vec4.Normalize | src/core/vec4.rs:124-134 | all four components are scaled by the one factor `isqrt(len2)`, so zero components stay zero; with an exact `isqrt` a non-zero vector comes out with unit squared length |
| Vector4.AddCommutes | src/vec4.rs:19-31 | `a + b == b + a` |
| Vector4.AddThenSub | src/core/vec4.rs:23-56 | `(a + b) - b == a` |
| Vector4.SubThenAdd | src/vec4.rs:40-52 | `(a - b) + b == a` |
| Vector4.ScaleThenDiv | src/core/vec4.rs:65-101 | `(v * k) / k == v` for `k != 0` |
| Vector4.ApproxEqReflexiveSymmetric | src/core/vec4.rs:13-21 | componentwise closeness of vectors is reflexive and symmetric |
| Vector4.ApproxEqNotTransitive | src/core/vec4.rs:13-21 | componentwise closeness of vectors is not transitive |
| LegacyVector4.EqIsEquality | src/vec4.rs:12-17 | exact componentwise equality holds exactly when the vectors are equal |
| LegacyVector4.EqIsEquivalence | src/vec4.rs:12-17 | exact equality is reflexive, symmetric and transitive |
| LegacyVector4.AddAssign | src/vec4.rs:33-38 | after `self += rhs`, subtracting `rhs` gives the old `self` back, and `self` is unchanged exactly when `rhs` is zero |
| LegacyVector4.SubAssign | src/vec4.rs:54-59 | after `self -= rhs`, adding `rhs` gives the old `self` back, and `self` is unchanged exactly when `rhs` is zero |
| LegacyVector4.MulAssign | src/vec4.rs:76-82 | after `self *= k`, a non-zero `k` can be divided out again to give the old `self`; `k = 0` clears the vector and `k = 1` leaves it unchanged |
| LegacyVector4.DivAssign | src/vec4.rs:99-105 | after `self /= k`, for `k != 0`, multiplying by `k` gives the old `self` back |
| LegacyVector4.AssignmentsUndo | src/vec4.rs:33-105 | `+=` then `-=` of the same vector restores `self`, and so does `*=` then `/=` of the same non-zero factor |
| Vector3.Vec3.Cross | src/vec3.rs:131-139 | the right-handed cross product; its laws are the lemmas `CrossOrthogonal`, `CrossAnticommutes`, `CrossScales` and `CrossLen2` |
| Vector3.CrossOrthogonal | src/vec3.rs:131-139 | the cross product is orthogonal to both operands |
| Vector3.Vec3.Len2 | src/vec3.rs:112-116 | the squared length is the vector's dot product with itself and is never negative |
| Vector3.Vec3.Len | src/vec3.rs:118-122 | with an exact square root, the length is non-negative and squares to `len2` |
| Vector3.Vec3.Normalize | src/vec3.rs:124-129 | all three components are scaled by the one factor `isqrt(len2)`; with an exact `isqrt` a vector of positive length comes out with unit squared length |
| Vector3.FromVec4 | src/vec3.rs:21-26 | only `w` is dropped, with no divide by it: the squared length loses exactly `w²` |
| Vector3.ToVec4 | src/vec3.rs:28-33 | lifting gives `w = 1`, and dropping `w` again gives the original vector |
| Vector3.ProjectThenLift | src/vec3.rs:21-33 | dropping `w` and lifting again restores a `Vec4` exactly when its `w` is 1 |
| Vector3.AddCommutes | src/vec3.rs:35-42 | `a + b == b + a` |
| Vector3.AddThenSub | src/vec3.rs:35-58 | `(a + b) - b == a` |
| Vector3.ScaleThenDiv | src/vec3.rs:67-101 | `(v * k) / k == v` for `k != 0` |
| Vector3.Vec3.Dot | src/vec3.rs:141-145 | the inner product; its laws are the lemmas `DotCommutes` and `DotScale`, and `Len2` is its value on equal operands |
| Vector3.DotCommutes | src/vec3.rs:141-145 | `a · b == b · a` |
| Vector3.DotScale | src/vec3.rs:141-145 | a scalar factor on either operand comes out of the dot product |
| Vector3.CrossAnticommutes | src/vec3.rs:131-139 | `a × b == -(b × a)`, hence `a × a == 0` |
| Vector3.CrossScales | src/vec3.rs:131-139 | scaling the right operand by `k` scales each component of the cross product by `k` |
| Vector3.CrossLen2 | src/vec3.rs:131-145 | Lagrange's identity: `‖a × b‖² == ‖a‖²‖b‖² − (a · b)²` |
| Vector3.ScaledLen2 | src/vec3.rs:67-79 | scaling by `k` multiplies the squared length by `k²` |
| Vector3.ApproxEqReflexiveSymmetric | src/vec3.rs:14-19 | componentwise closeness of `Vec3` values is reflexive and symmetric |
| Colors.CastU8 | src/core/color.rs:14-19 | the float-to-byte cast truncates toward zero inside the byte range and saturates to 0 below it and 255 above it |
| Colors.CastU8OfByte | src/core/color.rs:14-19 | a whole number in 0..255 casts back to itself |
| Colors.ToVec4 | src/core/color.rs:21-26 | every component is a whole number in 0..255, and narrowing the vector again gives back the colour |
| Colors.FromVec4 | src/core/color.rs:14-19 | a channel keeps its component's value exactly when that component is a whole number in 0..255; any other component is truncated or saturated |
| Colors.CastExact | src/core/color.rs:14-19 | the byte cast is exact on the whole numbers 0..255 and nowhere else |
| Colors.RoundTrip | src/core/color.rs:14-26 | Color → Vec4 → Color is the identity |
| Colors.EqIsEquality | src/core/color.rs:7-12 | channel equality holds exactly when the colours are equal |
| Colors.AddThroughVec4 | src/core/color.rs:53-62 | adding two colours through their vectors adds the channels, saturating at 255 |
| Colors.SubThroughVec4 | src/core/color.rs:64-73 | subtracting through the vectors subtracts the channels, saturating at 0 |
| Colors.ScaleThroughVec4 | src/core/color.rs:75-81 | scaling through the vector by a whole factor multiplies the channels, saturating at 255 |
| Colors.DivThroughVec4 | src/core/color.rs:83-89 | dividing through the vector by a whole divisor divides the channels, rounding down (255 / 2 → 127) |
| Matrix4.Identity | src/core/mat4.rs:16-26 | every vector is its own image, and the identity is its own transpose |
| Matrix4.Translation | src/core/mat4.rs:28-37 | rows 0 to 2 are those of the identity and row 3 is `(t, 1)`; every point `(p, 1)` goes to `(p + t, 1)` |
| Matrix4.Dot | src/core/mat4.rs:201-278 | the row-by-column product; its laws are the lemmas `DotEntry`, `IdentityIsUnit` and `TransposeOfProduct` |
| Matrix4.Transpose | src/core/mat4.rs:280-289 | entry (i, j) of the result is entry (j, i) of the matrix |
| Matrix4Laws.IdentityEntry | src/core/mat4.rs:16-26 | the identity has ones on the diagonal and zeros elsewhere |
| Matrix4Laws.DotEntry | src/core/mat4.rs:201-278 | entry (i, j) of `a.dot(b)` is row i of `a` against column j of `b`, `Σ_k a[i][k]·b[k][j]` |
| Matrix4Laws.IdentityIsUnit | src/core/mat4.rs:201-278 | `identity().dot(m) == m` and `m.dot(identity()) == m` |
| Matrix4Laws.DotProductExample | src/core/mat4.rs:597-618 | the whole-number example product comes out exactly as the test expects |
| Matrix4Laws.TransposeEntry | src/core/mat4.rs:280-289 | entry (i, j) of the transpose is entry (j, i) of the matrix |
| Matrix4Laws.TransposeInvolution | src/core/mat4.rs:280-289 | transposing twice gives the original matrix |
| Matrix4Laws.TransposeOfProduct | src/core/mat4.rs:201-289 | `(a·b)ᵀ == bᵀ·aᵀ` |
| Matrix4Laws.TranslationMovesPoints | src/core/mat4.rs:28-37 | the translation matrix moves a point `(p, 1)` to `(p + t, 1)` and leaves a direction `(d, 0)` unchanged |
| Matrix4.Translate | src/core/mat4.rs:291-305 | rows 0 to 2 are unchanged; only row 3 is recomputed |
| Matrix4Laws.TranslateIsProduct | src/core/mat4.rs:291-305 | `m.translate(t) == translation(t).dot(m)` |
| Matrix4.XRotate | src/core/mat4.rs:307-328 | rows 0 and 3 are unchanged |
| Matrix4Laws.XRotateIsProduct | src/core/mat4.rs:307-328 | `m.x_rotate(a) == x_rotation(a).dot(m)` |
| Matrix4.YRotate | src/core/mat4.rs:330-351 | rows 1 and 3 are unchanged |
| Matrix4Laws.YRotateIsProduct | src/core/mat4.rs:330-351 | `m.y_rotate(a) == y_rotation(a).dot(m)` |
| Matrix4.ZRotate | src/core/mat4.rs:353-374 | rows 2 and 3 are unchanged |
| Matrix4Laws.ZRotateIsProduct | src/core/mat4.rs:353-374 | `m.z_rotate(a) == z_rotation(a).dot(m)` |
| Matrix4.AxisRotate | src/core/mat4.rs:376-426 | row 3 is unchanged |
| Matrix4Laws.CombineRowsIsProduct | src/core/mat4.rs:376-426 | combining rows 0 to 2 through a block with a zero fourth column, and copying row 3, is the product with that block over the unit fourth row |
| Matrix4Laws.AxisRotateIsProduct | src/core/mat4.rs:376-426 | `m.axis_rotate(axis, a) == axis_rotation(axis, a).dot(m)`, although the local block has a zero fourth row |
| Matrix4.XRotation | src/core/mat4.rs:128-139 | `+sin` at (1,2), `−sin` at (2,1), `cos` at (1,1) and (2,2); rows 0 and 3 are those of the identity |
| Matrix4.YRotation | src/core/mat4.rs:141-152 | `−sin` at (0,2), `+sin` at (2,0), `cos` at (0,0) and (2,2); rows 1 and 3 are those of the identity |
| Matrix4.ZRotation | src/core/mat4.rs:154-165 | `+sin` at (0,1), `−sin` at (1,0), `cos` at (0,0) and (1,1); rows 2 and 3 are those of the identity |
| Matrix4Laws.XRotationTurnsAxes | src/core/mat4.rs:128-139 | the x rotation fixes the x axis and sends y to `(0, cos, sin)` and z to `(0, −sin, cos)` |
| Matrix4Laws.YRotationTurnsAxes | src/core/mat4.rs:141-152 | the y rotation fixes the y axis and sends z to `(sin, 0, cos)` and x to `(cos, 0, −sin)` |
| Matrix4Laws.ZRotationTurnsAxes | src/core/mat4.rs:154-165 | the z rotation fixes the z axis and sends x to `(cos, sin, 0)` and y to `(−sin, cos, 0)` |
| Matrix4Laws.XRotationInverse | src/core/mat4.rs:128-139 | for `sin² + cos² = 1`, the rotation by the opposite angle is the inverse and the transpose |
| Matrix4Laws.YRotationInverse | src/core/mat4.rs:141-152 | for `sin² + cos² = 1`, the rotation by the opposite angle is the inverse and the transpose |
| Matrix4Laws.ZRotationInverse | src/core/mat4.rs:154-165 | for `sin² + cos² = 1`, the rotation by the opposite angle is the inverse and the transpose |
| Matrix4.AxisRotation | src/core/mat4.rs:167-199 | the rotation acts on directions only, since its fourth row and column are those of the identity; the zero angle (sin 0, cos 1) gives the identity, whatever the axis |
| Matrix4Laws.AxisRotationOnCoordinateAxes | src/core/mat4.rs:128-199 | about the unit x, y and z axes, `axis_rotation` equals `x_rotation`, `y_rotation` and `z_rotation` |
| Matrix4Laws.AxisRotationFixesAxis | src/core/mat4.rs:167-199 | a unit axis is fixed by the rotation about it, whatever the sine and cosine |
| Matrix4.LookAt | src/core/mat4.rs:39-52 | the three direction rows are pairwise orthogonal whatever the normalising factor is; row 3 is `(origin, 1)`; column 3 is `(0, 0, 0, 1)` |
| Matrix4Laws.LookAtOrthonormal | src/core/mat4.rs:39-52 | with an exact `isqrt`, `origin != target` and `up` not parallel to the line of sight, the three direction rows have unit length |
| Matrix4.Perspective | src/core/mat4.rs:54-75 | x is scaled by `focal / aspect` and y by `focal`, and the fourth column sends `-z` into `w`, so the later divide by `w` is a divide by the distance; the depth mapping is `PerspectiveDepth` |
| Matrix4.Orthographic | src/core/mat4.rs:77-99 | the fourth column is `(0, 0, 0, 1)`, so points keep `w = 1` and no divide is needed; the box mapping is `OrthographicCorners` |
| Matrix4.Frustum | src/core/mat4.rs:101-126 | the fourth column is `(0, 0, -1, 0)`, so `w` becomes the distance `-z`; the depth mapping is `FrustumDepth` and the corners are `FrustumCorners` |
| Matrix4Laws.OrthographicCorners | src/core/mat4.rs:77-99 | `(left, bottom, −near, 1)` goes to `(−1, −1, −1, 1)` and `(right, top, −far, 1)` to `(1, 1, 1, 1)` |
| Matrix4Laws.FrustumCorners | src/core/mat4.rs:101-126 | the near-bottom-left corner goes to `(−n, −n, −n, n)` and the far-top-right corner to `(f, f, f, f)`: (−1, −1, −1) and (1, 1, 1) after the divide by w |
| Matrix4Laws.FrustumDepth | src/core/mat4.rs:101-126 | for any x and y, a point at distance `near` gets `z = −w` and one at distance `far` gets `z = w`, with `w` the distance: depth −1 and 1 after the divide |
| Matrix4Laws.PerspectiveDepth | src/core/mat4.rs:54-75 | a point at distance `near` gets `z = −w`, one at distance `far` gets `z = w`, and `w` is the distance |
| Matrix4Laws.PerspectiveCorner | src/core/mat4.rs:54-75 | the top-right corner of the near face goes to (1, 1, −1) after the divide by w |
| Matrix4Laws.ApproxEqReflexiveSymmetric | src/core/mat4.rs:8-13 | rowwise closeness of matrices is reflexive and symmetric |
| Matrix4Laws.ApproxEqNotTransitive | src/core/mat4.rs:8-13 | rowwise closeness of matrices is not transitive |
| LegacyMatrix4.EqIsEquality | src/mat4.rs:9-14 | exact rowwise equality holds exactly when the matrices are equal |
| LegacyMatrix4.EqIsEquivalence | src/mat4.rs:9-14 | exact matrix equality is reflexive, symmetric and transitive |
| LegacyMatrix4.ExactLaws | src/mat4.rs:17-229 | under exact equality: identity is a two-sided unit of `dot`, `transpose` is an involution, and `translate` copies rows 0 to 2 and equals `translation(t).dot(m)` |
| LegacyMatrix4.TranslateExampleNotExact | src/mat4.rs:394-409 | the example's row 3 is exactly (80.6, 53.2, 52.4, 74.8), so the exact comparison with the rounded expectation is false |
| LegacyMatrix4.TranslateExampleApprox | src/mat4.rs:394-409 | under the tolerance-based equality the same comparison holds |

## Left out

- The body of `isqrt` (src/core/approx.rs:15-24) is left out. It works on the bits of the float with a magic constant. It is a parameter `isqrt: real -> real` everywhere, and exactness is an explicit assumption (`IsExactInvSqrt`). For negative inputs of large enough magnitude, its `u32` subtraction overflows, which panics in debug builds (test at src/core/approx.rs:57-62); that is not modelled.
- `f32` rounding, NaN and infinities are left out. Components are exact reals. A division whose divisor is zero gives infinities or NaN in the program; here it is excluded by a precondition (`Div`, `DivAssign`, `ASqrt`, `Len`, and the projection constructors' non-degeneracy). The NaN case of the float-to-`u8` cast is not modelled.
- `sin`, `cos` and `tan` are left out. The rotation constructors take an `Angle(sin, cos)`, and `perspective` takes `focal` in place of `tan(π/2 − fov/2)`. The inverse-rotation lemmas assume `sin² + cos² = 1`.
- The four-decimal expected values in the tests are rounded results and are not asserted. The one exception is the older `translate` example (see Findings).
- The `+=`, `-=`, `*=`, `/=` forms of `Vec3` (src/vec3.rs:44-109) and of the canonical `Vec4` (src/core/vec4.rs:37-109) are not given separate rows. They assign `*self op rhs` exactly as the older `Vec4` does, which is modelled once in `LegacyVector4`.
- The scalar operand of `*` and `/` may be any `T: Into<f32>`. It is a `real` here.
- src/core/vec3.rs is not part of this model. The canonical `Mat4` builds on it, and the model uses the `Vec3` of src/vec3.rs in its place.
- src/approx.rs is not part of this model. It is assumed to equal src/core/approx.rs.
- The FFI exports (src/lib.rs), the TypeScript host and WebGL code, the build configuration, the benchmarks, src/state.rs and the re-exports of src/core/mod.rs are outside the math kernel.
- Determinant, inverse, quaternions and TRS compose/decompose are not modelled: the repository does not implement them.
- Vector4.Vec4.Len2: states only that the value is non-negative. It does not state that it is zero exactly for the zero vector, which the solver handles poorly and nothing in the kernel relies on.
- Matrix4.LookAt: unit length of the rows is proved only under an exact `isqrt` and non-degenerate inputs (`Matrix4Laws.LookAtOrthonormal`), since the program's `isqrt` is an approximation.

## Findings

| source | as written | input that shows it | evidently intended | confidence | as-written member | corrected member |
|---|---|---|---|---|---|---|
| src/mat4.rs:394-409 | the `translate` example compares the result with four-decimal rounded values (53.1999, 52.3999, 74.7999) through the exact equality of src/mat4.rs:9-14 and src/vec4.rs:12-17 | the example's own matrix and offset (2.3, 3.6, 1.8): row 3 is (80.6, 53.2, 52.4, 74.8), which differs from 53.1999 by 0.0001, far more than `f32` rounding at that magnitude | a tolerance-based comparison, as the canonical copy makes for the same example (src/core/mat4.rs:637-655) | high; not executed | LegacyMatrix4.TranslateExampleNotExact | LegacyMatrix4.TranslateExampleApprox |
