/** The Unity engine functions that the boid update calls but whose internals
    are not part of this model: the square root, quaternion look-rotation,
    spherical interpolation and angle, and a rotation's forward direction.
    They are supplied as function values; the only laws assumed of them are
    that the square root is one and that the forward direction has length 1. Vector3.ClampMagnitude is written out in terms of
    the square root, as Unity defines it. */
module EngineMath {
  import opened Vectors

  /** UnityEngine.Quaternion; its components are never inspected here. */
  datatype Quat = Quat(x: real, y: real, z: real, w: real)

  /** The value of a Quaternion field that was never assigned. */
  const ZeroQuat: Quat := Quat(0.0, 0.0, 0.0, 0.0)

  datatype Engine = Engine(
    sqrt: real -> real,                       // Mathf.Sqrt
    lookRotation: Vec3 -> Quat,               // Quaternion.LookRotation(forward)
    slerp: (Quat, Quat, real) -> Quat,        // Quaternion.Slerp(a, b, t)
    slerpVector: (Vec3, Vec3, real) -> Vec3,  // Vector3.Slerp(a, b, t)
    angle: (Quat, Quat) -> real,              // Quaternion.Angle(a, b), in degrees
    forward: Quat -> Vec3                     // transform.forward of a rotation
  )
  {
    /** The square root returns the non-negative root of a non-negative
        argument, and a rotation's forward direction is a unit vector. */
    ghost predicate Lawful() {
      && (forall s: real {:trigger IsRootOf(s)} :: 0.0 <= s ==> IsRootOf(s))
      && (forall q: Quat {:trigger IsUnitForward(q)} :: IsUnitForward(q))
    }

    ghost predicate IsUnitForward(q: Quat) {
      SqrMagnitude(forward(q)) == 1.0
    }

    ghost predicate IsRootOf(s: real) {
      0.0 <= sqrt(s) && sqrt(s) * sqrt(s) == s
    }
  }

  /** Vector3.ClampMagnitude: a vector longer than `maxLength` is divided by
      its length and multiplied by `maxLength`; any other vector comes back
      unchanged. */
  function ClampMagnitude(e: Engine, v: Vec3, maxLength: real): Vec3
    requires e.Lawful()
  {
    var sqrmag := SqrMagnitude(v);
    if sqrmag > maxLength * maxLength then
      var mag := e.sqrt(sqrmag);
      assert 0.0 < mag by {
        SquareNonNegative(maxLength);
        assert e.IsRootOf(sqrmag);
      }
      Scale(Div(v, mag), maxLength)
    else
      v
  }

  /** What ClampMagnitude promises: the result is never longer than
      `maxLength`; a vector within the limit is returned as it is; a longer
      one is rescaled to exactly the limit, in its own direction when the
      limit is not negative. */
  lemma ClampMagnitudeLimits(e: Engine, v: Vec3, maxLength: real)
    requires e.Lawful()
    ensures var r := ClampMagnitude(e, v, maxLength);
      && SqrMagnitude(r) <= maxLength * maxLength
      && (SqrMagnitude(v) <= maxLength * maxLength ==> r == v)
      && (SqrMagnitude(v) > maxLength * maxLength ==> SqrMagnitude(r) == maxLength * maxLength)
      && (0.0 <= maxLength ==> Cross(r, v) == Zero && 0.0 <= Dot(r, v))
  {
    var sqrmag := SqrMagnitude(v);
    SquareNonNegative(maxLength);
    if sqrmag > maxLength * maxLength {
      var mag := e.sqrt(sqrmag);
      assert e.IsRootOf(sqrmag);
      RescaleToLength(v, mag, maxLength);
    } else {
      ScaleKeepsDirection(v, 1.0);
      assert Scale(v, 1.0) == v;
    }
  }

  /** Dividing a vector by its length and multiplying by `len` gives a vector
      of squared length `len * len`, in the same direction when `len` is not
      negative. */
  lemma RescaleToLength(v: Vec3, mag: real, len: real)
    requires 0.0 < mag && mag * mag == SqrMagnitude(v)
    ensures SqrMagnitude(Scale(Div(v, mag), len)) == len * len
    ensures 0.0 <= len ==> Cross(Scale(Div(v, mag), len), v) == Zero
    ensures 0.0 <= len ==> 0.0 <= Dot(Scale(Div(v, mag), len), v)
  {
    var k := len / mag;
    assert Scale(Div(v, mag), len) == Scale(v, k);
    SqrMagnitudeScale(v, k);
    assert k * mag == len;
    calc {
      k * k * SqrMagnitude(v);
      k * k * (mag * mag);
      (k * mag) * (k * mag);
      len * len;
    }
    if 0.0 <= len {
      ScaleKeepsDirection(v, k);
    }
  }
}
