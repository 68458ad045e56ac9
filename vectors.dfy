/** Three-component vectors over the reals: the part of Unity's Vector3 that
    the boid update uses. Float rounding is not modelled. */
module Vectors {

  datatype Vec3 = Vec3(x: real, y: real, z: real)

  /** Vector3.zero */
  const Zero: Vec3 := Vec3(0.0, 0.0, 0.0)

  /** Vector3.kEpsilon, the tolerance of Vector3's equality operator. */
  const Epsilon: real := 0.00001

  function Add(a: Vec3, b: Vec3): Vec3 {
    Vec3(a.x + b.x, a.y + b.y, a.z + b.z)
  }

  function Sub(a: Vec3, b: Vec3): Vec3 {
    Vec3(a.x - b.x, a.y - b.y, a.z - b.z)
  }

  function Neg(a: Vec3): Vec3 {
    Vec3(-a.x, -a.y, -a.z)
  }

  /** `a * k` */
  function Scale(a: Vec3, k: real): Vec3 {
    Vec3(a.x * k, a.y * k, a.z * k)
  }

  /** `a / d`, component by component */
  function Div(a: Vec3, d: real): Vec3
    requires d != 0.0
  {
    Vec3(a.x / d, a.y / d, a.z / d)
  }

  function Dot(a: Vec3, b: Vec3): real {
    a.x * b.x + a.y * b.y + a.z * b.z
  }

  function Cross(a: Vec3, b: Vec3): Vec3 {
    Vec3(a.y * b.z - a.z * b.y, a.z * b.x - a.x * b.z, a.x * b.y - a.y * b.x)
  }

  /** Vector3.sqrMagnitude: never negative. */
  function SqrMagnitude(a: Vec3): (r: real)
    ensures 0.0 <= r
  {
    SquareNonNegative(a.x);
    SquareNonNegative(a.y);
    SquareNonNegative(a.z);
    a.x * a.x + a.y * a.y + a.z * a.z
  }

  /** Vector3's `==`: the squared distance is below kEpsilon squared. */
  predicate ApproxEqual(a: Vec3, b: Vec3) {
    SqrMagnitude(Sub(a, b)) < Epsilon * Epsilon
  }

  lemma SquareNonNegative(r: real)
    ensures 0.0 <= r * r
  {
    if r < 0.0 {
      NonNegativeProduct(-r, -r);
      assert r * r == (-r) * (-r);
    } else {
      NonNegativeProduct(r, r);
    }
  }

  lemma NonNegativeProduct(a: real, b: real)
    requires 0.0 <= a && 0.0 <= b
    ensures 0.0 <= a * b
  {
  }

  /** Scaling by `k` scales the squared magnitude by `k * k`. */
  lemma SqrMagnitudeScale(a: Vec3, k: real)
    ensures SqrMagnitude(Scale(a, k)) == k * k * SqrMagnitude(a)
  {
    calc {
      SqrMagnitude(Scale(a, k));
      (a.x * k) * (a.x * k) + (a.y * k) * (a.y * k) + (a.z * k) * (a.z * k);
      k * k * (a.x * a.x) + k * k * (a.y * a.y) + k * k * (a.z * a.z);
      k * k * SqrMagnitude(a);
    }
  }

  /** The squared distance between two points does not depend on which is the origin. */
  lemma SqrDistanceSymmetric(a: Vec3, b: Vec3)
    ensures SqrMagnitude(Sub(a, b)) == SqrMagnitude(Sub(b, a))
  {
    assert (a.x - b.x) * (a.x - b.x) == (b.x - a.x) * (b.x - a.x);
    assert (a.y - b.y) * (a.y - b.y) == (b.y - a.y) * (b.y - a.y);
    assert (a.z - b.z) * (a.z - b.z) == (b.z - a.z) * (b.z - a.z);
  }

  /** A non-negative multiple of a vector is parallel to it and points the same way. */
  lemma ScaleKeepsDirection(a: Vec3, k: real)
    requires 0.0 <= k
    ensures Cross(Scale(a, k), a) == Zero
    ensures 0.0 <= Dot(Scale(a, k), a)
  {
    var s := Scale(a, k);
    assert s.x == a.x * k && s.y == a.y * k && s.z == a.z * k;
    assert s.y * a.z - s.z * a.y == 0.0 by { assert (a.y * k) * a.z == (a.z * k) * a.y; }
    assert s.z * a.x - s.x * a.z == 0.0 by { assert (a.z * k) * a.x == (a.x * k) * a.z; }
    assert s.x * a.y - s.y * a.x == 0.0 by { assert (a.x * k) * a.y == (a.y * k) * a.x; }
    SquareNonNegative(a.x);
    SquareNonNegative(a.y);
    SquareNonNegative(a.z);
    NonNegativeProduct(k, a.x * a.x);
    NonNegativeProduct(k, a.y * a.y);
    NonNegativeProduct(k, a.z * a.z);
    assert s.x * a.x == k * (a.x * a.x);
    assert s.y * a.y == k * (a.y * a.y);
    assert s.z * a.z == k * (a.z * a.z);
  }
}
