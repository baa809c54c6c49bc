/** Quaternions `w + x i + y j + z k` with the Hamilton product, the alternative rotation form. */
module Quaternions {
  import opened Vectors
  import opened Matrices

  /** `Quat`: the four components `w`, `x`, `y`, `z`. */
  datatype Quat = Quat(w: real, x: real, y: real, z: real)

  /** `PositionToQuat`: a position as a pure quaternion (zero real part). */
  function PositionToQuat(pos: V3): (q: Quat)
    ensures q.w == 0.0 && QuatToPosition(q) == pos
  {
    Quat(0.0, pos.x, pos.y, pos.z)
  }

  /** `QuatToPosition`: the vector part of a quaternion. */
  function QuatToPosition(q: Quat): V3
  {
    V3(q.x, q.y, q.z)
  }

  /** `QuatConjugate`: the vector part negated. */
  function QuatConjugate(q: Quat): Quat
  {
    Quat(q.w, -q.x, -q.y, -q.z)
  }

  /** `operator*(Quat, Quat)`: the Hamilton product, with `i*i == j*j == k*k == i*j*k == -1`. */
  function QuatMul(q1: Quat, q2: Quat): Quat
  {
    Quat(q1.w * q2.w - q1.x * q2.x - q1.y * q2.y - q1.z * q2.z,
         q1.w * q2.x + q1.x * q2.w + q1.y * q2.z - q1.z * q2.y,
         q1.w * q2.y + q1.y * q2.w + q1.z * q2.x - q1.x * q2.z,
         q1.w * q2.z + q1.z * q2.w + q1.x * q2.y - q1.y * q2.x)
  }

  /** `GetIdentityRotationQuat`: the quaternion 1. */
  function GetIdentityRotationQuat(): Quat
  {
    Quat(1.0, 0.0, 0.0, 0.0)
  }

  /** `QuatRotate`: the sandwich `(rotations * p) * conjugate(rotations)`, read back as a position. */
  function QuatRotate(rotations: Quat, position: V3): V3
  {
    var pq := PositionToQuat(position);
    var rotationsInv := QuatConjugate(rotations);
    QuatToPosition(QuatMul(QuatMul(rotations, pq), rotationsInv))
  }

  /** `GetRotationQuat`: `cos(angle/2) + sin(angle/2) * axis`, with `sinf` and `cosf` left arbitrary. */
  function GetRotationQuat(trig: Trig, axis: V3, angle: real): Quat
  {
    var s := trig.sin(angle * 0.5);
    var c := trig.cos(angle * 0.5);
    Quat(c, s * axis.x, s * axis.y, s * axis.z)
  }

  /** The squared length of a quaternion; rotation quaternions have length one. */
  function NormSquared(q: Quat): real
  {
    q.w * q.w + q.x * q.x + q.y * q.y + q.z * q.z
  }

  /**
   * `GetRotationQuat` of a unit axis is a unit quaternion, given only that the sine and cosine it
   * was built from satisfy `sin^2 + cos^2 == 1` at half the angle.
   */
  lemma RotationQuatIsUnit(trig: Trig, axis: V3, angle: real)
    requires Dot3(axis, axis) == 1.0
    requires var s, c := trig.sin(angle * 0.5), trig.cos(angle * 0.5); s * s + c * c == 1.0
    ensures NormSquared(GetRotationQuat(trig, axis, angle)) == 1.0
  {
    UnitNormOfParts(trig.sin(angle * 0.5), trig.cos(angle * 0.5), axis);
  }

  /** `RotationQuatIsUnit` for the quaternion given by its half-angle sine and cosine. */
  lemma UnitNormOfParts(s: real, c: real, axis: V3)
    requires Dot3(axis, axis) == 1.0 && s * s + c * c == 1.0
    ensures NormSquared(Quat(c, s * axis.x, s * axis.y, s * axis.z)) == 1.0
  {
    assert NormSquared(Quat(c, s * axis.x, s * axis.y, s * axis.z)) == c * c + s * s * Dot3(axis, axis);
  }

  /** Reading a position back after storing it gives the position. */
  lemma PositionRoundTrip(p: V3, q: Quat)
    ensures QuatToPosition(PositionToQuat(p)) == p
    ensures q.w == 0.0 ==> PositionToQuat(QuatToPosition(q)) == q
  {
  }

  /** Conjugation is an involution. */
  lemma ConjugateInvolution(q: Quat)
    ensures QuatConjugate(QuatConjugate(q)) == q
  {
  }

  /** The identity quaternion is a unit on both sides of the product. */
  lemma IdentityIsUnit(q: Quat)
    ensures QuatMul(GetIdentityRotationQuat(), q) == q
    ensures QuatMul(q, GetIdentityRotationQuat()) == q
  {
  }

  /** Sandwiching any quaternion between the identity and its conjugate gives it back. */
  lemma SandwichByIdentity(q: Quat)
    ensures QuatMul(QuatMul(GetIdentityRotationQuat(), q), QuatConjugate(GetIdentityRotationQuat())) == q
  {
    IdentityIsUnit(q);
    ConjugateIdentityIsRightUnit(q);
  }

  /** The conjugate of the identity quaternion is a right unit as well. */
  lemma ConjugateIdentityIsRightUnit(q: Quat)
    ensures QuatMul(q, QuatConjugate(GetIdentityRotationQuat())) == q
  {
    IdentityIsUnit(q);
    assert QuatConjugate(GetIdentityRotationQuat()) == GetIdentityRotationQuat();
  }

  /** Rotating by the identity quaternion leaves every position where it is. */
  lemma IdentityRotationFixes(p: V3)
    ensures QuatRotate(GetIdentityRotationQuat(), p) == p
  {
    SandwichByIdentity(PositionToQuat(p));
  }

  /** The Hamilton product is associative, so the sandwich in `QuatRotate` may be grouped either way. */
  lemma MulAssociative(q1: Quat, q2: Quat, q3: Quat)
    ensures QuatMul(QuatMul(q1, q2), q3) == QuatMul(q1, QuatMul(q2, q3))
  {
    MulAssociativeComponents(q1.w, q1.x, q1.y, q1.z, q2.w, q2.x, q2.y, q2.z, q3.w, q3.x, q3.y, q3.z);
  }

  /** `MulAssociative` written out component by component over the twelve coefficients. */
  lemma MulAssociativeComponents(a: real, b: real, c: real, d: real,
                                 e: real, f: real, g: real, h: real,
                                 i: real, j: real, k: real, l: real)
    ensures var A := Quat(a * e - b * f - c * g - d * h, a * f + b * e + c * h - d * g,
                          a * g + c * e + d * f - b * h, a * h + d * e + b * g - c * f);
            var B := Quat(e * i - f * j - g * k - h * l, e * j + f * i + g * l - h * k,
                          e * k + g * i + h * j - f * l, e * l + h * i + f * k - g * j);
            A.w * i - A.x * j - A.y * k - A.z * l == a * B.w - b * B.x - c * B.y - d * B.z &&
            A.w * j + A.x * i + A.y * l - A.z * k == a * B.x + b * B.w + c * B.z - d * B.y &&
            A.w * k + A.y * i + A.z * j - A.x * l == a * B.y + c * B.w + d * B.x - b * B.z &&
            A.w * l + A.z * i + A.x * k - A.y * j == a * B.z + d * B.w + b * B.y - c * B.x
  {
  }

  /** The sandwich of a pure quaternion is pure, so `QuatRotate` drops nothing when it reads the position back. */
  lemma SandwichIsPure(r: Quat, p: V3)
    ensures QuatMul(QuatMul(r, PositionToQuat(p)), QuatConjugate(r)).w == 0.0
  {
  }

  /**
   * A rotation quaternion leaves its own unit axis where it is, given only that the sine and
   * cosine it was built from satisfy `sin^2 + cos^2 == 1` at half the angle.
   */
  lemma RotationQuatFixesAxis(trig: Trig, axis: V3, angle: real)
    requires Dot3(axis, axis) == 1.0
    requires var s, c := trig.sin(angle * 0.5), trig.cos(angle * 0.5); s * s + c * c == 1.0
    ensures QuatRotate(GetRotationQuat(trig, axis, angle), axis) == axis
  {
    RotatedUnitAxis(trig.sin(angle * 0.5), trig.cos(angle * 0.5), axis);
    assert GetRotationQuat(trig, axis, angle)
        == Quat(trig.cos(angle * 0.5), trig.sin(angle * 0.5) * axis.x, trig.sin(angle * 0.5) * axis.y, trig.sin(angle * 0.5) * axis.z);
  }

  /** `RotationQuatFixesAxis` for the rotation quaternion given by its half-angle sine and cosine. */
  lemma RotatedUnitAxis(s: real, c: real, axis: V3)
    requires Dot3(axis, axis) == 1.0 && s * s + c * c == 1.0
    ensures QuatRotate(Quat(c, s * axis.x, s * axis.y, s * axis.z), axis) == axis
  {
    assert Scale3(s * s * (axis.x * axis.x + axis.y * axis.y + axis.z * axis.z) + c * c, axis) == axis by {
      assert s * s * (axis.x * axis.x + axis.y * axis.y + axis.z * axis.z) + c * c == 1.0 by {
        assert axis.x * axis.x + axis.y * axis.y + axis.z * axis.z == 1.0;
      }
    }
    RotatedAxis(s, c, axis);
  }

  /** Rotating the axis about itself scales it by `s^2 |axis|^2 + c^2`. */
  lemma RotatedAxis(s: real, c: real, axis: V3)
    ensures QuatRotate(Quat(c, s * axis.x, s * axis.y, s * axis.z), axis)
         == Scale3(s * s * (axis.x * axis.x + axis.y * axis.y + axis.z * axis.z) + c * c, axis)
  {
    assert QuatRotate(Quat(c, s * axis.x, s * axis.y, s * axis.z), axis)
        == QuatToPosition(QuatMul(QuatMul(Quat(c, s * axis.x, s * axis.y, s * axis.z), PositionToQuat(axis)),
                                  QuatConjugate(Quat(c, s * axis.x, s * axis.y, s * axis.z))));
    SandwichOfAxis(s, c, axis);
  }

  /** The sandwich of the axis between the rotation quaternion and its conjugate. */
  lemma SandwichOfAxis(s: real, c: real, axis: V3)
    ensures var q, k := Quat(c, s * axis.x, s * axis.y, s * axis.z), s * s * (axis.x * axis.x + axis.y * axis.y + axis.z * axis.z) + c * c;
      QuatMul(QuatMul(q, PositionToQuat(axis)), QuatConjugate(q)) == Quat(0.0, k * axis.x, k * axis.y, k * axis.z)
  {
    assert PositionToQuat(axis) == Quat(0.0, axis.x, axis.y, axis.z);
    assert QuatConjugate(Quat(c, s * axis.x, s * axis.y, s * axis.z))
        == Quat(c, -(s * axis.x), -(s * axis.y), -(s * axis.z));
    SandwichOfParts(s, c, axis.x, axis.y, axis.z);
  }

  /**
   * The sandwich of `(0, a)` between `(c, s a)` and `(c, -s a)` is `(0, a)` scaled by
   * `s^2 |a|^2 + c^2`.
   */
  lemma SandwichOfParts(s: real, c: real, a: real, b: real, d: real)
    ensures var k := s * s * (a * a + b * b + d * d) + c * c;
      QuatMul(QuatMul(Quat(c, s * a, s * b, s * d), Quat(0.0, a, b, d)), Quat(c, -(s * a), -(s * b), -(s * d)))
        == Quat(0.0, k * a, k * b, k * d)
  {
    var half := QuatMul(Quat(c, s * a, s * b, s * d), Quat(0.0, a, b, d));
    FirstHalfRealPart(s, c, a, b, d);
    FirstHalfVectorPart(s, c, a, b, d);
    assert half == Quat(-s * (a * a + b * b + d * d), c * a, c * b, c * d);
    SecondHalfRealPart(s, c, a, b, d);
    SecondHalfX(s, c, a, b, d);
    SecondHalfY(s, c, a, b, d);
    SecondHalfZ(s, c, a, b, d);
  }

  /** Real part of `(c, s a) * (0, a)`: minus `s` times the squared length of `a`. */
  lemma FirstHalfRealPart(s: real, c: real, a: real, b: real, d: real)
    ensures QuatMul(Quat(c, s * a, s * b, s * d), Quat(0.0, a, b, d)).w == -s * (a * a + b * b + d * d)
  {
    MulOfParts(c, s * a, s * b, s * d, 0.0, a, b, d);
  }

  /** Vector part of `(c, s a) * (0, a)`: `c a`, since the cross product of `a` with itself vanishes. */
  lemma FirstHalfVectorPart(s: real, c: real, a: real, b: real, d: real)
    ensures QuatMul(Quat(c, s * a, s * b, s * d), Quat(0.0, a, b, d)).x == c * a
    ensures QuatMul(Quat(c, s * a, s * b, s * d), Quat(0.0, a, b, d)).y == c * b
    ensures QuatMul(Quat(c, s * a, s * b, s * d), Quat(0.0, a, b, d)).z == c * d
  {
    MulOfParts(c, s * a, s * b, s * d, 0.0, a, b, d);
  }

  /** Real part of `(-s |a|^2, c a) * (c, -s a)`: the two terms cancel. */
  lemma SecondHalfRealPart(s: real, c: real, a: real, b: real, d: real)
    ensures QuatMul(Quat(-s * (a * a + b * b + d * d), c * a, c * b, c * d), Quat(c, -(s * a), -(s * b), -(s * d))).w
         == 0.0
  {
    MulOfParts(-s * (a * a + b * b + d * d), c * a, c * b, c * d, c, -(s * a), -(s * b), -(s * d));
  }

  /** `x` part of `(-s |a|^2, c a) * (c, -s a)`: `a.x` scaled by `s^2 |a|^2 + c^2`. */
  lemma SecondHalfX(s: real, c: real, a: real, b: real, d: real)
    ensures QuatMul(Quat(-s * (a * a + b * b + d * d), c * a, c * b, c * d), Quat(c, -(s * a), -(s * b), -(s * d))).x
         == (s * s * (a * a + b * b + d * d) + c * c) * a
  {
    MulOfParts(-s * (a * a + b * b + d * d), c * a, c * b, c * d, c, -(s * a), -(s * b), -(s * d));
  }

  /** `y` part of `(-s |a|^2, c a) * (c, -s a)`: `a.y` scaled by `s^2 |a|^2 + c^2`. */
  lemma SecondHalfY(s: real, c: real, a: real, b: real, d: real)
    ensures QuatMul(Quat(-s * (a * a + b * b + d * d), c * a, c * b, c * d), Quat(c, -(s * a), -(s * b), -(s * d))).y
         == (s * s * (a * a + b * b + d * d) + c * c) * b
  {
    MulOfParts(-s * (a * a + b * b + d * d), c * a, c * b, c * d, c, -(s * a), -(s * b), -(s * d));
  }

  /** `z` part of `(-s |a|^2, c a) * (c, -s a)`: `a.z` scaled by `s^2 |a|^2 + c^2`. */
  lemma SecondHalfZ(s: real, c: real, a: real, b: real, d: real)
    ensures QuatMul(Quat(-s * (a * a + b * b + d * d), c * a, c * b, c * d), Quat(c, -(s * a), -(s * b), -(s * d))).z
         == (s * s * (a * a + b * b + d * d) + c * c) * d
  {
    MulOfParts(-s * (a * a + b * b + d * d), c * a, c * b, c * d, c, -(s * a), -(s * b), -(s * d));
  }

  /**
   * The Hamilton product of two quaternions given by their components. Stated on plain variables,
   * it lets the lemmas above instantiate the product instead of unfolding it on polynomial components.
   */
  lemma MulOfParts(w1: real, x1: real, y1: real, z1: real, w2: real, x2: real, y2: real, z2: real)
    ensures QuatMul(Quat(w1, x1, y1, z1), Quat(w2, x2, y2, z2))
         == Quat(w1 * w2 - x1 * x2 - y1 * y2 - z1 * z2,
                 w1 * x2 + x1 * w2 + y1 * z2 - z1 * y2,
                 w1 * y2 + y1 * w2 + z1 * x2 - x1 * z2,
                 w1 * z2 + z1 * w2 + x1 * y2 - y1 * x2)
  {
  }
}
