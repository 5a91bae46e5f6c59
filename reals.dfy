/** Facts about multiplication of reals, each stated on plain variables so
    that the places using them only ever see linear arithmetic. */
module Reals {

  function Abs(x: real): real {
    if x < 0.0 then -x else x
  }

  lemma ScaleLe(b: real, t: real, u: real)
    requires b >= 0.0 && t <= u
    ensures b * t <= b * u
  {
    assert b * u - b * t == b * (u - t);
  }

  lemma ScaleLt(b: real, t: real, u: real)
    requires b > 0.0 && t < u
    ensures b * t < b * u
  {
    assert b * u - b * t == b * (u - t);
  }

  lemma NegProduct(a: real, x: real)
    ensures a * -x == -(a * x)
    ensures (-x) * a == -(x * a)
  {
  }

  lemma ProductPositive(x: real, y: real)
    requires x > 0.0 && y > 0.0
    ensures x * y > 0.0
  {
  }

  lemma NegSquare(a: real)
    ensures (-a) * (-a) == a * a
  {
  }

  lemma Square(a: real)
    ensures a * a >= 0.0
  {
    if a < 0.0 {
      NegSquare(a);
      ScaleLe(-a, 0.0, -a);
    } else {
      ScaleLe(a, 0.0, a);
    }
  }

  /** Squaring is strictly increasing on the nonnegative reals. */
  lemma SquareStrict(a: real, b: real)
    requires 0.0 <= a < b
    ensures a * a < b * b
  {
    ProductPositive(b - a, b + a);
    assert (b - a) * (b + a) == b * b - a * a;
  }

  /** Equal arguments give equal results. The solver does not always see
      this on its own once the arguments are products. */
  lemma Congruence(f: real -> real, a: real, b: real)
    requires a == b
    ensures f(a) == f(b)
  {
  }

  lemma Congruence2(f: (real, real) -> real, a: real, b: real, c: real, d: real)
    requires a == b && c == d
    ensures f(a, c) == f(b, d)
  {
  }

  lemma AbsSquare(a: real)
    ensures Abs(a) * Abs(a) == a * a
  {
    if a < 0.0 {
      NegSquare(a);
    }
  }

  /** The square of the shorter of two reals is the smaller one. */
  lemma AbsSquareLe(a: real, b: real)
    requires Abs(a) <= Abs(b)
    ensures a * a <= b * b
  {
    AbsSquare(a);
    AbsSquare(b);
    if Abs(a) < Abs(b) {
      SquareStrict(Abs(a), Abs(b));
    }
  }

  lemma AddLe(a1: real, a2: real, a3: real, b1: real, b2: real, b3: real)
    requires a1 <= b1 && a2 <= b2 && a3 <= b3
    ensures a1 + a2 + a3 <= b1 + b2 + b3
  {
  }
}
