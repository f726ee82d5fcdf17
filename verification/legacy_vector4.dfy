/** The older copy of the four-component vector.  Its data and its
    arithmetic are those of `Vector4`; what differs is that equality is
    exact, and that the compound assignments are spelled out here. */
module LegacyVector4 {
  import opened Vector4

  /** Exact componentwise equality. */
  predicate Eq(lhs: Vec4, rhs: Vec4) {
    lhs.x == rhs.x && lhs.y == rhs.y && lhs.z == rhs.z && lhs.w == rhs.w
  }

  /** The value `self` holds after `self += rhs`: the one vector from
      which subtracting `rhs` leads back to `self`, so it stays put exactly
      when `rhs` is zero. */
  function AddAssign(self: Vec4, rhs: Vec4): (updated: Vec4)
    ensures updated.Sub(rhs) == self
    ensures Eq(updated, self) <==> rhs == Zero()
  {
    self.Add(rhs)
  }

  /** The value `self` holds after `self -= rhs`: the one vector to
      which adding `rhs` leads back to `self`. */
  function SubAssign(self: Vec4, rhs: Vec4): (updated: Vec4)
    ensures updated.Add(rhs) == self
    ensures Eq(updated, self) <==> rhs == Zero()
  {
    self.Sub(rhs)
  }

  /** The value `self` holds after `self *= k`: a non-zero factor can be
      divided out again, a zero factor clears the vector, and a unit factor
      leaves it as it was. */
  function MulAssign(self: Vec4, k: real): (updated: Vec4)
    ensures k != 0.0 ==> updated.Div(k) == self
    ensures k == 0.0 ==> updated == Zero()
    ensures k == 1.0 ==> Eq(updated, self)
  {
    self.Scale(k)
  }

  /** The value `self` holds after `self /= k`: the one vector that
      multiplied by `k` gives `self` back. */
  function DivAssign(self: Vec4, k: real): (updated: Vec4)
    requires k != 0.0
    ensures updated.Scale(k) == self
  {
    self.Div(k)
  }

  /** Exact equality is equality of values, hence an equivalence relation:
      reflexive, symmetric and transitive. */
  lemma EqIsEquality(a: Vec4, b: Vec4)
    ensures Eq(a, b) <==> a == b
  {
  }

  lemma EqIsEquivalence(a: Vec4, b: Vec4, c: Vec4)
    ensures Eq(a, a)
    ensures Eq(a, b) ==> Eq(b, a)
    ensures Eq(a, b) && Eq(b, c) ==> Eq(a, c)
  {
  }

  /** `+=` followed by `-=` of the same vector restores `self`, and so
      does `*=` followed by `/=` of the same non-zero factor. */
  lemma AssignmentsUndo(self: Vec4, rhs: Vec4, k: real)
    requires k != 0.0
    ensures SubAssign(AddAssign(self, rhs), rhs) == self
    ensures DivAssign(MulAssign(self, k), k) == self
  {
  }
}
