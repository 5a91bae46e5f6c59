/**
 The two C math library calls the kernels make, sqrt and atan2, are not
 defined here: every kernel takes them as parameters, and what the model
 assumes of them is stated by the predicates below. sqrt is characterised
 completely on the nonnegative reals; atan2 on the coordinate axes and by
 its range on the closed upper half plane.
 */
module Libm {
  import opened Reals

  /** sqrt returns the nonnegative square root of every nonnegative argument. */
  ghost predicate IsSqrt(sqrt: real -> real) {
    forall r :: r >= 0.0 ==> sqrt(r) >= 0.0 && sqrt(r) * sqrt(r) == r
  }

  /** atan2(y, x) on the axes: 0 on the positive x axis, pi/2 on the positive
      y axis, pi on the negative x axis, and 0 at the origin (as the C library
      defines atan2(+0, +0)). */
  ghost predicate Atan2AxisCases(atan2: (real, real) -> real, pi: real) {
    && (forall x :: x > 0.0 ==> atan2(0.0, x) == 0.0)
    && (forall x :: x < 0.0 ==> atan2(0.0, x) == pi)
    && (forall y :: y > 0.0 ==> atan2(y, 0.0) == pi / 2.0)
    && atan2(0.0, 0.0) == 0.0
  }

  /** atan2 maps the closed upper half plane into [0, pi]. */
  ghost predicate Atan2UpperHalfPlane(atan2: (real, real) -> real, pi: real) {
    forall y, x :: y >= 0.0 ==> 0.0 <= atan2(y, x) <= pi
  }

  lemma SqrtOfSquare(sqrt: real -> real, a: real)
    requires IsSqrt(sqrt)
    requires a >= 0.0
    ensures sqrt(a * a) == a
  {
    var s := sqrt(a * a);
    assert s >= 0.0 && s * s == a * a;
    if s < a {
      SquareStrict(s, a);
    } else if a < s {
      SquareStrict(a, s);
    }
  }

  lemma SqrtOfPositive(sqrt: real -> real, r: real)
    requires IsSqrt(sqrt)
    requires r > 0.0
    ensures sqrt(r) > 0.0
  {
    assert sqrt(r) * sqrt(r) == r;
  }

  /** sqrt is monotone on the nonnegative reals. */
  lemma SqrtMonotone(sqrt: real -> real, a: real, b: real)
    requires IsSqrt(sqrt)
    requires 0.0 <= a <= b
    ensures sqrt(a) <= sqrt(b)
  {
    var sa, sb := sqrt(a), sqrt(b);
    assert sa >= 0.0 && sa * sa == a;
    assert sb >= 0.0 && sb * sb == b;
    if sb < sa {
      SquareStrict(sb, sa);
    }
  }
}
