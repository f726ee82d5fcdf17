/** Packed RGBA colour: four unsigned byte channels, converted to and from a
    four-component vector for arithmetic. */
module Colors {
  import opened Vector4

  /** An unsigned 8-bit channel value. */
  type Byte = b: int | 0 <= b < 256

  datatype Color = Color(r: Byte, g: Byte, b: Byte, a: Byte)

  /** Channel equality: all four channels equal. */
  predicate Eq(lhs: Color, rhs: Color) {
    lhs.r == rhs.r && lhs.g == rhs.g && lhs.b == rhs.b && lhs.a == rhs.a
  }

  /** Rust's float-to-`u8` cast: truncation toward zero, saturating at both
      ends of the byte range. */
  function CastU8(x: real): (n: Byte)
    ensures 0.0 <= x < 256.0 ==> n as real <= x < n as real + 1.0
    ensures x < 0.0 ==> n == 0
    ensures x >= 256.0 ==> n == 255
  {
    if x <= 0.0 then 0 else if x >= 255.0 then 255 else x.Floor
  }

  /** A real that a byte represents exactly: whole, and within 0..255. */
  predicate IsWholeByte(x: real) {
    0.0 <= x <= 255.0 && x.Floor as real == x
  }

  /** Widening: every component is a whole byte value, and narrowing it
      again gives back the colour. */
  function ToVec4(c: Color): (v: Vec4)
    ensures IsWholeByte(v.x) && IsWholeByte(v.y) && IsWholeByte(v.z) && IsWholeByte(v.w)
    ensures FromVec4(v) == c
  {
    CastU8OfByte(c.r);
    CastU8OfByte(c.g);
    CastU8OfByte(c.b);
    CastU8OfByte(c.a);
    Vec4(c.r as real, c.g as real, c.b as real, c.a as real)
  }

  /** Narrowing: each component is cast to a byte independently, and a
      channel keeps its component's value exactly when that component is a
      whole byte; any other component is truncated or saturated. */
  function FromVec4(v: Vec4): (c: Color)
    ensures c.r as real == v.x <==> IsWholeByte(v.x)
    ensures c.g as real == v.y <==> IsWholeByte(v.y)
    ensures c.b as real == v.z <==> IsWholeByte(v.z)
    ensures c.a as real == v.w <==> IsWholeByte(v.w)
  {
    CastExact(v.x);
    CastExact(v.y);
    CastExact(v.z);
    CastExact(v.w);
    Color(CastU8(v.x), CastU8(v.y), CastU8(v.z), CastU8(v.w))
  }

  /** The cast is exact on whole bytes and nowhere else. */
  lemma CastExact(x: real)
    ensures CastU8(x) as real == x <==> IsWholeByte(x)
  {
    if IsWholeByte(x) {
      CastU8OfByte(x.Floor);
    }
  }

  function Min(p: int, q: int): int {
    if p <= q then p else q
  }

  function Max(p: int, q: int): int {
    if p >= q then p else q
  }

  /** Byte product, saturating at 255. */
  function SatMul(c: Byte, n: nat): Byte {
    var p := c * n;
    if p >= 255 then 255 else p
  }

  /** Byte quotient, rounded down. */
  function Quotient(c: Byte, n: nat): Byte
    requires n > 0
  {
    QuotientBounds(c, n);
    c / n
  }

  /** A byte read as a real casts back to itself. */
  lemma CastU8OfByte(n: Byte)
    ensures CastU8(n as real) == n
  {
  }

  /** Channel equality coincides with equality of colours. */
  lemma EqIsEquality(lhs: Color, rhs: Color)
    ensures Eq(lhs, rhs) <==> lhs == rhs
  {
  }

  /** Widening and narrowing again gives back the same colour. */
  lemma RoundTrip(c: Color)
    ensures FromVec4(ToVec4(c)) == c
  {
    CastU8OfByte(c.r);
    CastU8OfByte(c.g);
    CastU8OfByte(c.b);
    CastU8OfByte(c.a);
  }

  /** Adding two colours through their vectors adds the channels,
      saturating at 255. */
  lemma AddThroughVec4(p: Color, q: Color)
    ensures FromVec4(ToVec4(p).Add(ToVec4(q))) ==
      Color(Min(p.r + q.r, 255), Min(p.g + q.g, 255), Min(p.b + q.b, 255), Min(p.a + q.a, 255))
  {
  }

  /** Subtracting through the vectors subtracts the channels, saturating
      at 0. */
  lemma SubThroughVec4(p: Color, q: Color)
    ensures FromVec4(ToVec4(p).Sub(ToVec4(q))) ==
      Color(Max(p.r - q.r, 0), Max(p.g - q.g, 0), Max(p.b - q.b, 0), Max(p.a - q.a, 0))
  {
  }

  /** Scaling through the vector by a whole factor multiplies the channels,
      saturating at 255. */
  lemma ScaleThroughVec4(c: Color, n: nat)
    ensures FromVec4(ToVec4(c).Scale(n as real)) ==
      Color(SatMul(c.r, n), SatMul(c.g, n), SatMul(c.b, n), SatMul(c.a, n))
  {
    var v := ToVec4(c).Scale(n as real);
    ScaleChannel(c.r, n, v.x);
    ScaleChannel(c.g, n, v.y);
    ScaleChannel(c.b, n, v.z);
    ScaleChannel(c.a, n, v.w);
  }

  lemma ScaleChannel(c: Byte, n: nat, x: real)
    requires x == c as real * n as real
    ensures CastU8(x) == SatMul(c, n)
  {
    IntProductAsReal(c, n);
  }

  /** Dividing through the vector by a whole divisor divides the channels,
      rounding down: 255 / 2 becomes 127. */
  lemma DivThroughVec4(c: Color, n: nat)
    requires n > 0
    ensures FromVec4(ToVec4(c).Div(n as real)) ==
      Color(Quotient(c.r, n), Quotient(c.g, n), Quotient(c.b, n), Quotient(c.a, n))
  {
    var k := n as real;
    var v := ToVec4(c).Div(k);
    assert v == Vec4(c.r as real / k, c.g as real / k, c.b as real / k, c.a as real / k);
    DivChannel(c.r, n);
    DivChannel(c.g, n);
    DivChannel(c.b, n);
    DivChannel(c.a, n);
  }

  lemma DivChannel(c: Byte, n: nat)
    requires n > 0
    ensures CastU8(c as real / n as real) == Quotient(c, n)
  {
    var q := c / n;
    var x := c as real / n as real;
    QuotientBounds(c, n);
    assert 0.0 <= q as real <= x < q as real + 1.0 <= 256.0;
    var r := CastU8(x);
    assert r as real <= x < r as real + 1.0;
    assert r < q + 1 && q < r + 1;
  }

  /** Real division of naturals lies between the integer quotient and the
      next integer. */
  lemma QuotientBounds(c: nat, n: nat)
    requires n > 0
    ensures 0 <= c / n <= c
    ensures (c / n) as real <= c as real / n as real < (c / n) as real + 1.0
  {
    var q, m := c / n, c % n;
    assert c == q * n + m && 0 <= m < n;
    var Q, N, M := q as real, n as real, m as real;
    IntProductAsReal(q, n);
    assert c as real == Q * N + M;
    var x := c as real / N;
    assert x == Q + M / N;
    assert 0.0 <= M / N < 1.0 by {
      assert M / N * N == M;
      if M / N >= 1.0 {
        MulMonotone(1.0, M / N, N);
      }
    }
  }

  lemma IntProductAsReal(a: int, b: int)
    ensures (a * b) as real == a as real * b as real
  {
  }

  lemma MulMonotone(a: real, b: real, k: real)
    requires a <= b && k > 0.0
    ensures a * k <= b * k
  {
  }
}
