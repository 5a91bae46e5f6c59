/**
 The per-axis periodic wrap both reference implementations are built on:
 a displacement d in a box of edge L becomes d - L * round(d / L), where
 round is C's round(), which takes halfway cases away from zero.
 */
module Periodic {
  import opened Reals

  /** FLT_EPSILON (2^-23): minimum_image leaves an axis whose edge is not
      above it unwrapped. */
  const FltEpsilon: real := 1.0 / 8388608.0

  /** C's round(): the nearest integer, halfway cases rounded away from zero.
      The two ensures pin the result down uniquely. */
  function Round(s: real): (n: int)
    ensures s >= 0.0 ==> s - 0.5 < n as real <= s + 0.5
    ensures s < 0.0 ==> s - 0.5 <= n as real < s + 0.5
  {
    if s >= 0.0 then (s + 0.5).Floor else -((-s + 0.5).Floor)
  }

  /** s lies exactly halfway between two integers. */
  predicate IsHalfInteger(s: real) {
    (s + 0.5).Floor as real == s + 0.5
  }

  /** round is symmetric: round(-s) == -round(s). */
  lemma RoundOdd(s: real)
    ensures Round(-s) == -Round(s)
  {
  }

  /** Away from halfway cases round is plain floor(s + 1/2), whatever the sign. */
  lemma RoundNonTie(s: real)
    requires !IsHalfInteger(s)
    ensures Round(s) == (s + 0.5).Floor
  {
    var n := Round(s);
    if s < 0.0 {
      assert n as real != s - 0.5;
      assert n as real <= s + 0.5 < n as real + 1.0;
    }
  }

  /** Shifting the argument by a whole number k shifts the result by k,
      unless the argument is a halfway case. */
  lemma RoundShift(s: real, k: int)
    requires !IsHalfInteger(s)
    ensures Round(s + k as real) == Round(s) + k
  {
    assert (s + k as real + 0.5).Floor == (s + 0.5).Floor + k;
    assert !IsHalfInteger(s + k as real);
    RoundNonTie(s);
    RoundNonTie(s + k as real);
  }

  /** s - round(s): where s sits relative to its nearest integer. Halfway
      cases give -1/2 for a nonnegative s and +1/2 for a negative one. */
  function Frac(s: real): (t: real)
    ensures -0.5 <= t <= 0.5
    ensures s >= 0.0 ==> t < 0.5
    ensures s < 0.0 ==> -0.5 < t
  {
    s - Round(s) as real
  }

  lemma FracOdd(s: real)
    ensures Frac(-s) == -Frac(s)
  {
    RoundOdd(s);
  }

  /** An edge b times a fraction t in [-1/2, 1/2]: a point of [-b/2, b/2],
      strictly inside at an end where t is. */
  function Scale(b: real, t: real): (r: real)
    requires b > 0.0 && -0.5 <= t <= 0.5
    ensures -b / 2.0 <= r <= b / 2.0
    ensures t < 0.5 ==> r < b / 2.0
    ensures -0.5 < t ==> -b / 2.0 < r
  {
    ScaleBounds(b, t);
    b * t
  }

  lemma ScaleBounds(b: real, t: real)
    requires b > 0.0 && -0.5 <= t <= 0.5
    ensures -b / 2.0 <= b * t <= b / 2.0
    ensures t < 0.5 ==> b * t < b / 2.0
    ensures -0.5 < t ==> -b / 2.0 < b * t
  {
    ScaleLe(b, -0.5, t);
    ScaleLe(b, t, 0.5);
    if t < 0.5 { ScaleLt(b, t, 0.5); }
    if -0.5 < t { ScaleLt(b, -0.5, t); }
  }

  lemma ScaleOdd(b: real, t: real)
    requires b > 0.0 && -0.5 <= t <= 0.5
    ensures Scale(b, -t) == -Scale(b, t)
  {
  }

  /** One axis of minimum_image: with s = inverseBox * x the axis becomes
      box * (s - round(s)) when box exceeds FLT_EPSILON and stays x otherwise.
      A wrapped axis lands in the closed interval [-box/2, box/2]. */
  function MinImageAxis(x: real, box: real, inverseBox: real): (r: real)
    ensures box <= FltEpsilon ==> r == x
    ensures box > FltEpsilon ==> -box / 2.0 <= r <= box / 2.0
  {
    if box > FltEpsilon then Scale(box, Frac(inverseBox * x)) else x
  }

  /** The wrap written inline in the vanilla kernels: rij - round(rij / box) * box.
      For a positive edge the result lies in [-box/2, box/2]; halfway cases go
      to -box/2 for a nonnegative displacement and to +box/2 for a negative one. */
  function VanillaWrap(r: real, box: real): (w: real)
    requires box != 0.0
    ensures box > 0.0 ==> -box / 2.0 <= w <= box / 2.0
    ensures box > 0.0 && r >= 0.0 ==> w < box / 2.0
    ensures box > 0.0 && r < 0.0 ==> -box / 2.0 < w
  {
    if box > 0.0 then
      VanillaWrapIsScale(r, box);
      r - Round(r / box) as real * box
    else
      r - Round(r / box) as real * box
  }

  /** box * (q - n) == r - n * box when q is r / box. */
  lemma Unscale(r: real, box: real, q: real, n: real)
    requires box != 0.0 && q == r / box
    ensures box * (q - n) == r - n * box
  {
    assert box * q == r;
  }

  /** For a positive edge the divide form of the wrap is the edge scaled by
      the fraction of r / box. */
  lemma VanillaWrapIsScale(r: real, box: real)
    requires box > 0.0
    ensures r - Round(r / box) as real * box == Scale(box, Frac(r / box))
    ensures r >= 0.0 ==> r / box >= 0.0
    ensures r < 0.0 ==> r / box < 0.0
  {
    var q := r / box;
    Unscale(r, box, q, Round(q) as real);
    if r < 0.0 {
      QuotientNegative(r, box);
    }
  }

  lemma QuotientNegative(r: real, box: real)
    requires box > 0.0 && r < 0.0
    ensures r / box < 0.0
  {
    assert box * (r / box) == r;
  }

  lemma MinImageAxisUnfold(x: real, box: real, inverseBox: real)
    requires box > FltEpsilon
    ensures MinImageAxis(x, box, inverseBox) == Scale(box, Frac(inverseBox * x))
  {
  }

  lemma VanillaWrapUnfold(r: real, box: real)
    requires box != 0.0
    ensures VanillaWrap(r, box) == r - Round(r / box) as real * box
  {
  }

  lemma ReciprocalTimes(x: real, box: real, inverseBox: real)
    requires box != 0.0 && inverseBox == 1.0 / box
    ensures inverseBox * x == x / box
  {
  }

  lemma FracCongruence(s: real, t: real)
    requires s == t
    ensures Frac(s) == Frac(t)
  {
  }

  /** With the exact reciprocal of the edge, minimum_image's multiply form and
      the vanilla divide form compute the same wrapped value. */
  lemma MinImageIsVanillaWrap(x: real, box: real, inverseBox: real)
    requires box > FltEpsilon && inverseBox == 1.0 / box
    ensures MinImageAxis(x, box, inverseBox) == VanillaWrap(x, box)
  {
    ReciprocalTimes(x, box, inverseBox);
    FracCongruence(inverseBox * x, x / box);
    MinImageAxisUnfold(x, box, inverseBox);
    VanillaWrapIsScale(x, box);
    VanillaWrapUnfold(x, box);
  }

  lemma NegQuotient(r: real, box: real)
    requires box != 0.0
    ensures -r / box == -(r / box)
  {
  }

  lemma NegWrap(r: real, n: real, box: real)
    ensures -r - (-n) * box == -(r - n * box)
  {
  }

  /** The wrap is odd: wrap(-r) == -wrap(r). */
  lemma VanillaWrapOdd(r: real, box: real)
    requires box != 0.0
    ensures VanillaWrap(-r, box) == -VanillaWrap(r, box)
  {
    VanillaWrapUnfold(r, box);
    VanillaWrapUnfold(-r, box);
    NegQuotient(r, box);
    RoundOdd(r / box);
    NegWrap(r, Round(r / box) as real, box);
  }

  /** minimum_image is odd in the displacement, whatever inverseBox holds. */
  lemma MinImageOdd(x: real, box: real, inverseBox: real)
    ensures MinImageAxis(-x, box, inverseBox) == -MinImageAxis(x, box, inverseBox)
  {
    if box > FltEpsilon {
      MinImageAxisUnfold(x, box, inverseBox);
      MinImageAxisUnfold(-x, box, inverseBox);
      NegProduct(inverseBox, x);
      FracOdd(inverseBox * x);
      ScaleOdd(box, Frac(inverseBox * x));
    }
  }

  lemma ShiftQuotient(r: real, box: real, k: real)
    requires box != 0.0
    ensures (r + k * box) / box == r / box + k
  {
    assert r + k * box == box * (r / box + k);
  }

  lemma ShiftWrap(r: real, n: real, k: real, box: real)
    ensures (r + k * box) - (n + k) * box == r - n * box
  {
  }

  /** Moving a displacement by k whole boxes does not change its wrap, unless
      it is a halfway case. */
  lemma VanillaWrapShift(r: real, box: real, k: int, r': real)
    requires box != 0.0
    requires !IsHalfInteger(r / box)
    requires r' == r + k as real * box
    ensures VanillaWrap(r', box) == VanillaWrap(r, box)
  {
    var q := r / box;
    var n := Round(q);
    ShiftQuotient(r, box, k as real);
    assert r' / box == q + k as real;
    RoundShift(q, k);
    assert Round(r' / box) as real == n as real + k as real;
    VanillaWrapUnfold(r', box);
    assert VanillaWrap(r', box) == r' - (n as real + k as real) * box;
    ShiftWrap(r, n as real, k as real, box);
    VanillaWrapUnfold(r, box);
  }

  /** The halfway exception is real: -4 and -4 + 8 wrap differently in a box of 8. */
  lemma VanillaWrapShiftFailsAtTie()
    ensures IsHalfInteger(-4.0 / 8.0)
    ensures VanillaWrap(-4.0, 8.0) == 4.0
    ensures VanillaWrap(-4.0 + 1.0 * 8.0, 8.0) == -4.0
  {
    VanillaWrapUnfold(-4.0, 8.0);
    VanillaWrapUnfold(4.0, 8.0);
    assert Round(-0.5) == -1;
    assert Round(0.5) == 1;
  }

  /** A nonzero whole number m of edges is at least one edge long. */
  lemma WholeBoxes(m: int, box: real, p: real)
    requires box > 0.0 && p == m as real * box
    ensures p == 0.0 || box <= p || p <= -box
  {
    if m == 0 {
      assert p == 0.0 * box;
    } else if m >= 1 {
      ScaleLe(box, 1.0, m as real);
    } else {
      ScaleLe(box, m as real, -1.0);
    }
  }

  lemma NoShorterTranslate(w: real, box: real, p: real)
    requires box > 0.0 && -box / 2.0 <= w <= box / 2.0
    requires p == 0.0 || box <= p || p <= -box
    ensures Abs(w) <= Abs(w + p)
  {
  }

  /** r - n * edge is w + (R - n) * edge when w is r - R * edge. */
  lemma SplitTranslate(r: real, R: real, n: real, box: real)
    ensures r - n * box == (r - R * box) + (R - n) * box
  {
  }

  /** The wrapped value is the minimum image: no other whole-box translate of
      the displacement is shorter. */
  lemma VanillaWrapIsMinimal(r: real, box: real, n: int)
    requires box > 0.0
    ensures Abs(VanillaWrap(r, box)) <= Abs(r - n as real * box)
  {
    var R := Round(r / box);
    var w := VanillaWrap(r, box);
    var p := (R - n) as real * box;
    VanillaWrapUnfold(r, box);
    SplitTranslate(r, R as real, n as real, box);
    assert (R - n) as real == R as real - n as real;
    WholeBoxes(R - n, box, p);
    NoShorterTranslate(w, box, p);
  }

  /** minimum_image with the exact inverse edge moves the axis by
      round(x / box) whole edges: it yields the translate t. */
  lemma MinImageAxisIsTranslate(x: real, box: real, inverseBox: real, t: real)
    requires box > FltEpsilon && inverseBox == 1.0 / box
    requires t == x - Round(x / box) as real * box
    ensures MinImageAxis(x, box, inverseBox) == t
  {
    MinImageIsVanillaWrap(x, box, inverseBox);
    VanillaWrapUnfold(x, box);
  }

  /** minimum_image with the exact inverse edge yields the shortest whole-box
      translate of the axis: it is itself the translate by round(x / box)
      edges, and no other translate is shorter. */
  lemma MinImageAxisIsMinimal(x: real, box: real, inverseBox: real, n: int, translate: real)
    requires box > FltEpsilon && inverseBox == 1.0 / box
    requires translate == x - n as real * box
    ensures MinImageAxis(x, box, inverseBox) == x - Round(x / box) as real * box
    ensures Abs(MinImageAxis(x, box, inverseBox)) <= Abs(translate)
  {
    MinImageAxisIsTranslate(x, box, inverseBox, x - Round(x / box) as real * box);
    MinImageIsVanillaWrap(x, box, inverseBox);
    VanillaWrapIsMinimal(x, box, n);
  }

  /** A displacement strictly within half an edge is left as it is. */
  lemma VanillaWrapInside(r: real, box: real)
    requires box > 0.0 && -box / 2.0 < r < box / 2.0
    ensures -0.5 < r / box < 0.5 && Round(r / box) == 0
    ensures VanillaWrap(r, box) == r
  {
    var q := r / box;
    assert box * q == r;
    assert -0.5 < q < 0.5 by {
      if q >= 0.5 {
        ScaleLe(box, 0.5, q);
      } else if q <= -0.5 {
        ScaleLe(box, q, -0.5);
      }
    }
    assert Round(q) == 0;
    VanillaWrapUnfold(r, box);
  }
}
