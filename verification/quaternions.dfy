/** Euler-angle to quaternion conversion (src/simenv/assets/asset.py, lines 26-35).
    The floating-point sine and cosine are not modelled: they are carried in a
    `Trig` record so that the conversion formula itself is stated exactly, and
    properties that need trigonometry assume only the Pythagorean identity. */
module Quaternions {

  /** The trigonometric primitives the conversion is computed with, and the
      value of pi used to convert degrees to radians. */
  datatype Trig = Trig(sin: real -> real, cos: real -> real, pi: real)

  /** sin^2 + cos^2 = 1 at every angle. */
  ghost predicate Pythagorean(trig: Trig) {
    forall t :: trig.sin(t) * trig.sin(t) + trig.cos(t) * trig.cos(t) == 1.0
  }

  /** sin 0 = 0 and cos 0 = 1. */
  predicate ZeroAngle(trig: Trig) {
    trig.sin(0.0) == 0.0 && trig.cos(0.0) == 1.0
  }

  /** A quaternion in the source's component order (x, y, z, w). */
  datatype Quat = Quat(x: real, y: real, z: real, w: real) {

    /** The list `[qx, qy, qz, qw]` the conversion returns. */
    function Components(): seq<real> {
      [x, y, z, w]
    }

    function NormSquared(): real {
      x * x + y * y + z * z + w * w
    }
  }

  const Identity: Quat := Quat(0.0, 0.0, 0.0, 1.0)

  /** The rotation with Euler angles x, y, z in radians, computed from the
      half-angle sines and cosines. It is a unit quaternion whenever the sines
      and cosines satisfy the Pythagorean identity, and zero angles give the
      identity rotation. */
  function QuatFromEuler(trig: Trig, x: real, y: real, z: real): (q: Quat)
    ensures Pythagorean(trig) ==> q.NormSquared() == 1.0
    ensures ZeroAngle(trig) && x == 0.0 && y == 0.0 && z == 0.0 ==> q == Identity
  {
    var sx, cx := trig.sin(x / 2.0), trig.cos(x / 2.0);
    var sy, cy := trig.sin(y / 2.0), trig.cos(y / 2.0);
    var sz, cz := trig.sin(z / 2.0), trig.cos(z / 2.0);
    assert Pythagorean(trig) ==> HalfAngleQuat(sx, cx, sy, cy, sz, cz).NormSquared() == 1.0 by {
      if Pythagorean(trig) {
        HalfAngleQuatUnit(sx, cx, sy, cy, sz, cz);
      }
    }
    HalfAngleQuat(sx, cx, sy, cy, sz, cz)
  }

  function HalfAngleQuat(sx: real, cx: real, sy: real, cy: real, sz: real, cz: real): Quat {
    Quat(sx * cy * cz - cx * sy * sz,
         cx * sy * cz + sx * cy * sz,
         cx * cy * sz - sx * sy * cz,
         cx * cy * cz + sx * sy * sz)
  }

  function Radians(trig: Trig, degrees: real): real {
    degrees * trig.pi / 180.0
  }

  /** The same conversion with the angles given in degrees; it keeps both
      properties of the radians conversion. */
  function QuatFromDegrees(trig: Trig, x: real, y: real, z: real): (q: Quat)
    ensures Pythagorean(trig) ==> q.NormSquared() == 1.0
    ensures ZeroAngle(trig) && x == 0.0 && y == 0.0 && z == 0.0 ==> q == Identity
  {
    QuatFromEuler(trig, Radians(trig, x), Radians(trig, y), Radians(trig, z))
  }

  /** Brahmagupta-Fibonacci with a unit factor: rotating (p, q) by a point
      (a, b) of the unit circle keeps its squared length. */
  lemma UnitTwoSquares(a: real, b: real, p: real, q: real)
    requires a * a + b * b == 1.0
    ensures (a * p - b * q) * (a * p - b * q) + (b * p + a * q) * (b * p + a * q) == p * p + q * q
  {
    var u := a * a + b * b;
    assert (a * p - b * q) * (a * p - b * q) + (b * p + a * q) * (b * p + a * q) == u * (p * p + q * q);
  }

  /** The four cross products of two unit-circle points have squares summing to one. */
  lemma UnitCrossProducts(a: real, b: real, c: real, d: real)
    requires a * a + b * b == 1.0
    requires c * c + d * d == 1.0
    ensures (a * c) * (a * c) + (b * d) * (b * d) + (b * c) * (b * c) + (a * d) * (a * d) == 1.0
  {
    var u, v := a * a + b * b, c * c + d * d;
    assert (a * c) * (a * c) + (b * d) * (b * d) + (b * c) * (b * c) + (a * d) * (a * d) == u * v;
  }

  /** The half-angle product has unit norm whenever each (sin, cos) pair lies
      on the unit circle. */
  lemma HalfAngleQuatUnit(sx: real, cx: real, sy: real, cy: real, sz: real, cz: real)
    requires sx * sx + cx * cx == 1.0
    requires sy * sy + cy * cy == 1.0
    requires sz * sz + cz * cz == 1.0
    ensures HalfAngleQuat(sx, cx, sy, cy, sz, cz).NormSquared() == 1.0
  {
    var a, b, c, d := cy * cz, sy * sz, sy * cz, cy * sz;
    assert HalfAngleQuat(sx, cx, sy, cy, sz, cz)
        == Quat(sx * a - cx * b, sx * d + cx * c, cx * d - sx * c, cx * a + sx * b);
    UnitTwoSquares(sx, cx, a, b);
    assert cx * cx + sx * sx == 1.0;
    UnitTwoSquares(cx, sx, d, c);
    assert cy * cy + sy * sy == 1.0 && cz * cz + sz * sz == 1.0;
    UnitCrossProducts(cy, sy, cz, sz);
  }
}
