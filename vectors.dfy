/** Three-component vectors over exact reals, as used for positions, normals and offsets. */
module Vectors {

  datatype Vec3 = Vec3(x: real, y: real, z: real)

  const Zero: Vec3 := Vec3(0.0, 0.0, 0.0)

  function Add(u: Vec3, v: Vec3): Vec3 {
    Vec3(u.x + v.x, u.y + v.y, u.z + v.z)
  }

  function Sub(u: Vec3, v: Vec3): Vec3 {
    Vec3(u.x - v.x, u.y - v.y, u.z - v.z)
  }

  /** `v * s`: each component multiplied by the scalar `s`. */
  function Scale(v: Vec3, s: real): Vec3 {
    Vec3(v.x * s, v.y * s, v.z * s)
  }

  function Dot(u: Vec3, v: Vec3): real {
    u.x * v.x + u.y * v.y + u.z * v.z
  }

  /** The cross product `u × v`. */
  function Cross(u: Vec3, v: Vec3): Vec3 {
    Vec3(u.y * v.z - u.z * v.y, u.z * v.x - u.x * v.z, u.x * v.y - u.y * v.x)
  }

  /** The cross product is perpendicular to both factors. */
  lemma CrossIsPerpendicular(u: Vec3, v: Vec3)
    ensures Dot(Cross(u, v), u) == 0.0 && Dot(Cross(u, v), v) == 0.0
  {
  }

  function SquaredLength(v: Vec3): real {
    v.x * v.x + v.y * v.y + v.z * v.z
  }

  /** Each component divided by `len`. */
  function DivideBy(v: Vec3, len: real): Vec3
    requires len > 0.0
  {
    Vec3(v.x / len, v.y / len, v.z / len)
  }

  /** A sum of squares is never negative, so its square root is always defined. */
  lemma SquaredLengthNonNegative(v: Vec3)
    ensures SquaredLength(v) >= 0.0
  {
    SquareNonNegative(v.x);
    SquareNonNegative(v.y);
    SquareNonNegative(v.z);
  }

  lemma SquareNonNegative(a: real)
    ensures a * a >= 0.0
  {
    if a < 0.0 {
      assert a * a == (-a) * (-a);
    }
  }

  /** The cross product of a vector with itself, or with the zero vector, is zero. */
  lemma CrossDegenerate(u: Vec3)
    ensures Cross(u, u) == Zero && Cross(u, Zero) == Zero && Cross(Zero, u) == Zero
  {
  }

  /** `len` is the (positive) length of `v`. */
  predicate IsLengthOf(len: real, v: Vec3) {
    len > 0.0 && len * len == SquaredLength(v)
  }

  /** Dividing a vector by its length gives a vector of length 1. */
  lemma DividedByLengthIsUnit(v: Vec3, len: real)
    requires IsLengthOf(len, v)
    ensures SquaredLength(DivideBy(v, len)) == 1.0
  {
    var q := 1.0 / len;
    DivisionIsScaling(v.x, len);
    DivisionIsScaling(v.y, len);
    DivisionIsScaling(v.z, len);
    ScaledSquare(q, v.x);
    ScaledSquare(q, v.y);
    ScaledSquare(q, v.z);
    InverseSquare(len);
    Distribute(q * q, v.x * v.x, v.y * v.y, v.z * v.z);
  }

  lemma DivisionIsScaling(a: real, len: real)
    requires len > 0.0
    ensures a / len == (1.0 / len) * a
  {
  }

  lemma ScaledSquare(s: real, a: real)
    ensures (s * a) * (s * a) == (s * s) * (a * a)
  {
  }

  lemma InverseSquare(len: real)
    requires len > 0.0
    ensures (1.0 / len) * (1.0 / len) * (len * len) == 1.0
  {
    var q := 1.0 / len;
    assert q * len == 1.0;
    assert q * q * (len * len) == (q * len) * (q * len);
  }

  lemma Distribute(k: real, a: real, b: real, c: real)
    ensures k * a + k * b + k * c == k * (a + b + c)
  {
  }
}
