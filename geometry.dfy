/**
 Three-component vectors and the algebra the bond and angle kernels perform
 on them before calling sqrt and atan2. A coordinate buffer is a flat
 sequence of 3N reals; point i occupies positions 3*i, 3*i+1 and 3*i+2.
 */
module Geometry {
  import opened Reals
  import opened Libm

  datatype Vec3 = Vec3(x: real, y: real, z: real)

  const Zero := Vec3(0.0, 0.0, 0.0)

  /** Component `axis` (0, 1 or 2) of v. */
  function Axis(v: Vec3, axis: nat): real
    requires axis < 3
  {
    if axis == 0 then v.x else if axis == 1 then v.y else v.z
  }

  /** Point i of a flat coordinate buffer. */
  function Triple(buf: seq<real>, i: nat): (p: Vec3)
    requires 3 * i + 3 <= |buf|
    ensures forall axis :: 0 <= axis < 3 ==> Axis(p, axis) == buf[3 * i + axis]
  {
    Vec3(buf[3 * i], buf[3 * i + 1], buf[3 * i + 2])
  }

  function Sub(a: Vec3, b: Vec3): Vec3 {
    Vec3(a.x - b.x, a.y - b.y, a.z - b.z)
  }

  function Neg(a: Vec3): Vec3 {
    Vec3(-a.x, -a.y, -a.z)
  }

  function Dot(a: Vec3, b: Vec3): real {
    a.x * b.x + a.y * b.y + a.z * b.z
  }

  /** The cross product, component by component as the angle kernels write it. */
  function Cross(a: Vec3, b: Vec3): Vec3 {
    Vec3(a.y * b.z - a.z * b.y, -a.x * b.z + a.z * b.x, a.x * b.y - a.y * b.x)
  }

  /** Squared length: a sum of three squares. */
  function NormSq(v: Vec3): (r: real)
    ensures r >= 0.0
  {
    Square(v.x); Square(v.y); Square(v.z);
    v.x * v.x + v.y * v.y + v.z * v.z
  }

  /** Sum of the squares of the first k components, as an axis loop accumulates it. */
  function PartialNormSq(v: Vec3, k: nat): real
    requires k <= 3
  {
    if k == 0 then 0.0 else PartialNormSq(v, k - 1) + Axis(v, k - 1) * Axis(v, k - 1)
  }

  lemma PartialNormSqComplete(v: Vec3)
    ensures PartialNormSq(v, 3) == NormSq(v)
  {
    assert PartialNormSq(v, 1) == v.x * v.x;
    assert PartialNormSq(v, 2) == v.x * v.x + v.y * v.y;
  }

  lemma SubAntisymmetric(a: Vec3, b: Vec3)
    ensures Sub(a, b) == Neg(Sub(b, a))
  {
  }

  lemma NormSqNeg(v: Vec3)
    ensures NormSq(Neg(v)) == NormSq(v)
  {
    NegSquare(v.x); NegSquare(v.y); NegSquare(v.z);
  }

  /** A vector no longer than another on every axis is no longer overall. */
  lemma NormSqLe(u: Vec3, v: Vec3)
    requires Abs(u.x) <= Abs(v.x) && Abs(u.y) <= Abs(v.y) && Abs(u.z) <= Abs(v.z)
    ensures NormSq(u) <= NormSq(v)
  {
    AbsSquareLe(u.x, v.x);
    AbsSquareLe(u.y, v.y);
    AbsSquareLe(u.z, v.z);
    AddLe(u.x * u.x, u.y * u.y, u.z * u.z, v.x * v.x, v.y * v.y, v.z * v.z);
  }

  /** Lagrange's identity: (a.b)^2 + |a x b|^2 == |a|^2 |b|^2. */
  lemma Lagrange(a: Vec3, b: Vec3)
    ensures Dot(a, b) * Dot(a, b) + NormSq(Cross(a, b)) == NormSq(a) * NormSq(b)
  {
    var c := Cross(a, b);
    assert c.x * c.x == a.y * a.y * b.z * b.z - 2.0 * a.y * b.z * a.z * b.y + a.z * a.z * b.y * b.y;
    assert c.y * c.y == a.x * a.x * b.z * b.z - 2.0 * a.x * b.z * a.z * b.x + a.z * a.z * b.x * b.x;
    assert c.z * c.z == a.x * a.x * b.y * b.y - 2.0 * a.x * b.y * a.y * b.x + a.y * a.y * b.x * b.x;
  }

  /** The angle at the vertex between u and v, computed as the kernels do:
      atan2(|u x v|, u . v). */
  function Angle(sqrt: real -> real, atan2: (real, real) -> real, u: Vec3, v: Vec3): real {
    atan2(sqrt(NormSq(Cross(u, v))), Dot(u, v))
  }

  /** On the axis cases of atan2 the angle is decided by the signs of
      x = u . v and y^2 = |u x v|^2 alone. */
  lemma AngleAxisCases(sqrt: real -> real, atan2: (real, real) -> real, pi: real, u: Vec3, v: Vec3)
    requires IsSqrt(sqrt) && Atan2AxisCases(atan2, pi)
    ensures NormSq(Cross(u, v)) == 0.0 && Dot(u, v) > 0.0 ==> Angle(sqrt, atan2, u, v) == 0.0
    ensures NormSq(Cross(u, v)) == 0.0 && Dot(u, v) == 0.0 ==> Angle(sqrt, atan2, u, v) == 0.0
    ensures NormSq(Cross(u, v)) == 0.0 && Dot(u, v) < 0.0 ==> Angle(sqrt, atan2, u, v) == pi
    ensures NormSq(Cross(u, v)) > 0.0 && Dot(u, v) == 0.0 ==> Angle(sqrt, atan2, u, v) == pi / 2.0
  {
    var y2, x := NormSq(Cross(u, v)), Dot(u, v);
    if y2 == 0.0 {
      SqrtOfSquare(sqrt, 0.0);
      assert sqrt(y2) == 0.0;
    } else {
      SqrtOfPositive(sqrt, y2);
    }
  }

  /** The angle lies in [0, pi]: its y argument is a square root, hence nonnegative. */
  lemma AngleInRange(sqrt: real -> real, atan2: (real, real) -> real, pi: real, u: Vec3, v: Vec3)
    requires IsSqrt(sqrt) && Atan2UpperHalfPlane(atan2, pi)
    ensures 0.0 <= Angle(sqrt, atan2, u, v) <= pi
  {
    var y := sqrt(NormSq(Cross(u, v)));
    assert y >= 0.0;
  }

  lemma CrossAntisymmetric(a: Vec3, b: Vec3)
    ensures Cross(b, a) == Neg(Cross(a, b))
  {
  }

  /** The angle between u and v is the angle between v and u. */
  lemma AngleSymmetric(sqrt: real -> real, atan2: (real, real) -> real, u: Vec3, v: Vec3)
    ensures Angle(sqrt, atan2, u, v) == Angle(sqrt, atan2, v, u)
  {
    CrossAntisymmetric(u, v);
    NormSqNeg(Cross(u, v));
    assert Dot(u, v) == Dot(v, u);
    Congruence(sqrt, NormSq(Cross(u, v)), NormSq(Cross(v, u)));
  }
}
