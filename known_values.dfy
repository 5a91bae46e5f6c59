/**
 The displacement pairs the angle fixtures meet, and the arguments atan2
 receives for them.
 */
module AxisPairs {
  import opened Libm
  import opened Geometry

  const Down := Vec3(0.0, 0.0, -1.0)
  const Up := Vec3(0.0, 0.0, 1.0)
  const Diagonal := Vec3(1.0, 1.0, 0.0)

  /** The arguments atan2 receives for the perpendicular pair. */
  lemma RightArguments()
    ensures NormSq(Cross(Down, Diagonal)) == 2.0 && Dot(Down, Diagonal) == 0.0
  {
    assert Cross(Down, Diagonal) == Vec3(1.0, -1.0, 0.0);
  }

  /** The arguments atan2 receives for the opposite pair. */
  lemma StraightArguments()
    ensures NormSq(Cross(Down, Up)) == 0.0 && Dot(Down, Up) == -1.0
  {
    assert Cross(Down, Up) == Zero;
    assert NormSq(Zero) == 0.0;
  }

  /** The arguments atan2 receives for a degenerate triad. */
  lemma DegenerateArguments()
    ensures NormSq(Cross(Zero, Zero)) == 0.0 && Dot(Zero, Zero) == 0.0
  {
    assert Cross(Zero, Zero) == Zero;
    assert NormSq(Zero) == 0.0;
  }

  /** The three axis cases of atan2 the fixture meets. */
  lemma AxisAngles(sqrt: real -> real, atan2: (real, real) -> real, pi: real)
    requires IsSqrt(sqrt) && Atan2AxisCases(atan2, pi)
    ensures Angle(sqrt, atan2, Down, Diagonal) == pi / 2.0
    ensures Angle(sqrt, atan2, Down, Up) == pi
    ensures Angle(sqrt, atan2, Zero, Zero) == 0.0
  {
    RightArguments();
    AngleAxisCases(sqrt, atan2, pi, Down, Diagonal);
    StraightArguments();
    AngleAxisCases(sqrt, atan2, pi, Down, Up);
    DegenerateArguments();
    AngleAxisCases(sqrt, atan2, pi, Zero, Zero);
  }

  /** Those give x = 3 and y^2 = 27, the arguments of pi/3. */
  lemma OffAxisArguments()
    ensures Dot(Vec3(1.0, 1.0, 2.0), Vec3(2.0, -1.0, 1.0)) == 3.0
    ensures NormSq(Cross(Vec3(1.0, 1.0, 2.0), Vec3(2.0, -1.0, 1.0))) == 27.0
  {
    assert Cross(Vec3(1.0, 1.0, 2.0), Vec3(2.0, -1.0, 1.0)) == Vec3(3.0, 3.0, -3.0);
  }
}

/**
 The known-value fixtures of src/lib/tests/test_kernels.cpp, stated about
 the model over exact reals: points strung out on the x axis in a box of 8,
 the same points without a box, and eight angle triads inside and outside a
 box of 10. Their expected values follow from the kernels' definitions and
 the axis cases of sqrt and atan2; the one angle off the axes (pi/3) is
 reduced to its two atan2 arguments.
 */
module KnownValues {
  import opened Reals
  import opened Libm
  import opened Geometry
  import opened Periodic
  import opened Vanilla
  import CalcDistances
  import opened AxisPairs

  // ---------------------------------------------------------------- bonds

  /** coords1 of the bond fixtures: point i is (i, 0, 0), for i = 0 .. 9. */
  function XAxis(): (c: seq<real>)
    ensures |c| == 30
  {
    seq(30, k requires 0 <= k < 30 => if k % 3 == 0 then (k / 3) as real else 0.0)
  }

  /** coords2 of the bond fixtures: ten points at the origin. */
  function Origins(): (c: seq<real>)
    ensures |c| == 30
  {
    seq(30, k requires 0 <= k < 30 => 0.0)
  }

  const Box8: seq<real> := [8.0, 8.0, 8.0]

  /** The reference lengths of the box-of-8 fixture. */
  const BondRef: seq<real> := [0.0, 1.0, 2.0, 3.0, 4.0, 3.0, 2.0, 1.0, 0.0, 1.0]

  lemma XAxisVector(i: nat)
    requires i < 10
    ensures BondVector(XAxis(), Origins(), i) == Vec3(i as real, 0.0, 0.0)
  {
    assert XAxis()[3 * i] == i as real;
  }

  /** A displacement along x of signed length w has length |w|. */
  lemma AxisLength(sqrt: real -> real, w: real, len: real)
    requires IsSqrt(sqrt) && len >= 0.0 && (w == len || w == -len)
    ensures sqrt(NormSq(Vec3(w, 0.0, 0.0))) == len
  {
    NegSquare(len);
    assert NormSq(Vec3(w, 0.0, 0.0)) == len * len;
    SqrtOfSquare(sqrt, len);
  }

  /** Point i wraps to i below half the box and to i - 8 from half the box
      on: the halfway point 4 goes to -4. */
  lemma XAxisWrap(i: nat)
    requires i < 10
    ensures Wrap(Vec3(i as real, 0.0, 0.0), Box8) == Vec3(if i < 4 then i as real else i as real - 8.0, 0.0, 0.0)
  {
    var x, q := i as real, i as real / 8.0;
    assert q * 8.0 == x;
    if i < 4 {
      assert 0.0 <= q < 0.5;
    } else {
      assert 0.5 <= q < 1.25;
    }
    VanillaWrapUnfold(x, 8.0);
    VanillaWrapUnfold(0.0, 8.0);
  }

  /** The expected length of bond i: i up to half the box, then the distance
      to the image at 8. */
  function XAxisLength(i: nat): real {
    if i <= 4 then i as real else if i <= 8 then 8.0 - i as real else i as real - 8.0
  }

  lemma XAxisBond(sqrt: real -> real, i: nat)
    requires IsSqrt(sqrt) && i < 10
    ensures Bonds(sqrt, XAxis(), Origins(), Box8, 10)[i] == XAxisLength(i)
  {
    XAxisVector(i);
    XAxisWrap(i);
    AxisLength(sqrt, if i < 4 then i as real else i as real - 8.0, XAxisLength(i));
  }

  lemma MatchesBondRef(d: seq<real>)
    requires |d| == 10 && forall i :: 0 <= i < 10 ==> d[i] == XAxisLength(i)
    ensures d == BondRef
  {
  }

  /** CalcBondsOrtho's known values (test_kernels.cpp:153-170): the divide-form
      wrap and minimum_image both report {0, 1, 2, 3, 4, 3, 2, 1, 0, 1}. */
  lemma BondsOrthoBoxFixture(sqrt: real -> real)
    requires IsSqrt(sqrt)
    ensures Bonds(sqrt, XAxis(), Origins(), Box8, 10) == BondRef
    ensures CalcDistances.BondDistances(sqrt, CalcDistances.Ortho(Box8), Points(XAxis(), 10), Points(Origins(), 10), 10) == BondRef
  {
    var d := Bonds(sqrt, XAxis(), Origins(), Box8, 10);
    forall i | 0 <= i < 10
      ensures d[i] == XAxisLength(i)
    {
      XAxisBond(sqrt, i);
    }
    MatchesBondRef(d);
    BondsMatchOrtho(sqrt, XAxis(), Origins(), Box8, 10);
  }

  /** CalcBondsNoBox's known values (test_kernels.cpp:172-188): point i is at
      distance i from the origin. */
  lemma BondsNoBoxFixture(sqrt: real -> real)
    requires IsSqrt(sqrt)
    ensures forall i :: 0 <= i < 10 ==> BondsNoBox(sqrt, XAxis(), Origins(), 10)[i] == i as real
    ensures BondsNoBox(sqrt, XAxis(), Origins(), 10)
      == CalcDistances.BondDistances(sqrt, CalcDistances.NoBox, Points(XAxis(), 10), Points(Origins(), 10), 10)
  {
    forall i | 0 <= i < 10
      ensures BondsNoBox(sqrt, XAxis(), Origins(), 10)[i] == i as real
    {
      XAxisVector(i);
      AxisLength(sqrt, i as real, i as real);
    }
    BondsNoBoxMatch(sqrt, XAxis(), Origins(), 10);
  }

  // ---------------------------------------------------------------- angles

  /** A flat coordinate buffer holding the points ps. */
  function Flat(ps: seq<Vec3>): (buf: seq<real>)
    ensures |buf| == 3 * |ps|
  {
    seq(3 * |ps|, k requires 0 <= k < 3 * |ps| => Axis(ps[k / 3], k % 3))
  }

  lemma FlatTriple(ps: seq<Vec3>, i: nat)
    requires i < |ps|
    ensures Triple(Flat(ps), i) == ps[i]
  {
    var buf := Flat(ps);
    assert buf[3 * i] == Axis(ps[i], 0);
    assert buf[3 * i + 1] == Axis(ps[i], 1);
    assert buf[3 * i + 2] == Axis(ps[i], 2);
  }

  /** The eight triads of the in-box fixtures (test_kernels.cpp:294-326):
      first, middle and last points. */
  const Firsts: seq<Vec3> := [Zero, Zero, Zero, Zero, Zero, Zero, Zero, Vec3(2.0, 3.0, 4.0)]
  const Middles: seq<Vec3> :=
    [Vec3(0.0, 0.0, 1.0), Vec3(0.0, 0.0, 1.0), Zero, Zero, Vec3(0.0, 0.0, 1.0), Vec3(0.0, 0.0, 1.0), Zero, Vec3(1.0, 2.0, 2.0)]
  const Lasts: seq<Vec3> :=
    [Vec3(1.0, 1.0, 1.0), Vec3(0.0, 0.0, 2.0), Zero, Zero, Vec3(1.0, 1.0, 1.0), Vec3(0.0, 0.0, 2.0), Zero, Vec3(3.0, 1.0, 3.0)]

  /** The same triads with some coordinates moved by the box of 10
      (test_kernels.cpp:328-344). */
  const OutFirsts: seq<Vec3> := [Zero, Zero, Zero, Zero, Zero, Zero, Zero, Vec3(12.0, 13.0, 14.0)]
  const OutMiddles: seq<Vec3> :=
    [Vec3(0.0, 0.0, 11.0), Vec3(0.0, 0.0, 11.0), Zero, Zero, Vec3(0.0, 0.0, 11.0), Vec3(0.0, 0.0, 11.0), Zero, Vec3(11.0, 12.0, 12.0)]
  const OutLasts: seq<Vec3> :=
    [Vec3(11.0, 11.0, 11.0), Vec3(0.0, 0.0, 12.0), Zero, Zero, Vec3(11.0, 11.0, 11.0), Vec3(0.0, 0.0, 12.0), Zero, Vec3(13.0, 11.0, 13.0)]

  /** Whole boxes between the out-of-box and the in-box displacements: rji
      moves along z, rjk along x and y. */
  const ShiftJI: seq<int> := [-1, -1, 0, 0, -1, -1, 0, 0]
  const ShiftJK: seq<int> := [1, 0, 0, 0, 1, 0, 0, 0]

  function C1(): seq<real> { Flat(Firsts) }
  function C2(): seq<real> { Flat(Middles) }
  function C3(): seq<real> { Flat(Lasts) }
  function OutC1(): seq<real> { Flat(OutFirsts) }
  function OutC2(): seq<real> { Flat(OutMiddles) }
  function OutC3(): seq<real> { Flat(OutLasts) }

  const Box10: seq<real> := [10.0, 10.0, 10.0]

  /** The displacements rji and rjk of triad i, in and out of the box. */
  lemma Displacements(i: nat)
    requires i < 8
    ensures BondVector(C1(), C2(), i) == Sub(Firsts[i], Middles[i])
    ensures BondVector(C3(), C2(), i) == Sub(Lasts[i], Middles[i])
    ensures BondVector(OutC1(), OutC2(), i) == Sub(OutFirsts[i], OutMiddles[i])
    ensures BondVector(OutC3(), OutC2(), i) == Sub(OutLasts[i], OutMiddles[i])
  {
    FlatTriple(Firsts, i);
    FlatTriple(Middles, i);
    FlatTriple(Lasts, i);
    FlatTriple(OutFirsts, i);
    FlatTriple(OutMiddles, i);
    FlatTriple(OutLasts, i);
  }

  /** The reference angles of the first seven triads. */
  function AngleRef(pi: real): seq<real> {
    [pi / 2.0, pi, 0.0, 0.0, pi / 2.0, pi, 0.0]
  }

  /** The no-box kernel's result for triad i is the angle of its displacements. */
  lemma TriadAngle(sqrt: real -> real, atan2: (real, real) -> real, i: nat, u: Vec3, v: Vec3)
    requires i < 8
    requires Sub(Firsts[i], Middles[i]) == u && Sub(Lasts[i], Middles[i]) == v
    ensures AnglesNoBox(sqrt, atan2, C1(), C2(), C3(), 8)[i] == Angle(sqrt, atan2, u, v)
  {
    Displacements(i);
  }

  /** Triads 0 and 4 are the perpendicular pair. */
  lemma RightTriad(sqrt: real -> real, atan2: (real, real) -> real, i: nat)
    requires i == 0 || i == 4
    ensures AnglesNoBox(sqrt, atan2, C1(), C2(), C3(), 8)[i] == Angle(sqrt, atan2, Down, Diagonal)
  {
    TriadAngle(sqrt, atan2, i, Down, Diagonal);
  }

  /** Triads 1 and 5 are the opposite pair. */
  lemma StraightTriad(sqrt: real -> real, atan2: (real, real) -> real, i: nat)
    requires i == 1 || i == 5
    ensures AnglesNoBox(sqrt, atan2, C1(), C2(), C3(), 8)[i] == Angle(sqrt, atan2, Down, Up)
  {
    TriadAngle(sqrt, atan2, i, Down, Up);
  }

  /** Triads 2, 3 and 6 are degenerate. */
  lemma DegenerateTriad(sqrt: real -> real, atan2: (real, real) -> real, i: nat)
    requires i == 2 || i == 3 || i == 6
    ensures AnglesNoBox(sqrt, atan2, C1(), C2(), C3(), 8)[i] == Angle(sqrt, atan2, Zero, Zero)
  {
    TriadAngle(sqrt, atan2, i, Zero, Zero);
  }

  /** The reference angle of triad i < 7, by the class of its pair. */
  function AxisAngleRef(pi: real, i: nat): real {
    if i == 0 || i == 4 then pi / 2.0 else if i == 1 || i == 5 then pi else 0.0
  }

  /** Given the three axis angles, the first seven triads meet their reference. */
  lemma AxisTriadsMatch(sqrt: real -> real, atan2: (real, real) -> real, pi: real)
    requires Angle(sqrt, atan2, Down, Diagonal) == pi / 2.0
    requires Angle(sqrt, atan2, Down, Up) == pi
    requires Angle(sqrt, atan2, Zero, Zero) == 0.0
    ensures forall i :: 0 <= i < 7 ==> AnglesNoBox(sqrt, atan2, C1(), C2(), C3(), 8)[i] == AxisAngleRef(pi, i)
  {
    var a := AnglesNoBox(sqrt, atan2, C1(), C2(), C3(), 8);
    forall i | 0 <= i < 7
      ensures a[i] == AxisAngleRef(pi, i)
    {
      if i == 0 || i == 4 {
        RightTriad(sqrt, atan2, i);
      } else if i == 1 || i == 5 {
        StraightTriad(sqrt, atan2, i);
      } else {
        DegenerateTriad(sqrt, atan2, i);
      }
    }
  }

  lemma MatchesAngleRef(pi: real, a: seq<real>)
    requires |a| == 8 && forall i :: 0 <= i < 7 ==> a[i] == AxisAngleRef(pi, i)
    ensures a[..7] == AngleRef(pi)
  {
  }

  /** The last triad is off the axes: rji = (1, 1, 2) and rjk = (2, -1, 1). */
  lemma OffAxisTriad()
    ensures BondVector(C1(), C2(), 7) == Vec3(1.0, 1.0, 2.0) && BondVector(C3(), C2(), 7) == Vec3(2.0, -1.0, 1.0)
  {
    Displacements(7);
  }

  /** CalcAnglesNoBox's known values (test_kernels.cpp:294-309): a right
      angle, a straight angle and five degenerate triads give pi/2, pi and 0;
      the last triad gives atan2(sqrt(27), 3). */
  lemma AnglesNoBoxFixture(sqrt: real -> real, atan2: (real, real) -> real, pi: real)
    requires IsSqrt(sqrt) && Atan2AxisCases(atan2, pi)
    ensures AnglesNoBox(sqrt, atan2, C1(), C2(), C3(), 8)[..7] == AngleRef(pi)
    ensures AnglesNoBox(sqrt, atan2, C1(), C2(), C3(), 8)[7] == atan2(sqrt(27.0), 3.0)
  {
    var a := AnglesNoBox(sqrt, atan2, C1(), C2(), C3(), 8);
    AxisAngles(sqrt, atan2, pi);
    AxisTriadsMatch(sqrt, atan2, pi);
    MatchesAngleRef(pi, a);
    OffAxisTriad();
    OffAxisArguments();
  }

  /** Both displacements of triad i lie inside half the box of 10. */
  lemma PointsInside(i: nat)
    requires i < 8
    ensures InsideHalfBox(Sub(Firsts[i], Middles[i]), Box10) && InsideHalfBox(Sub(Lasts[i], Middles[i]), Box10)
  {
  }

  /** The out-of-box displacements of triad i are the in-box ones moved by
      whole boxes. */
  lemma PointsShifted(i: nat)
    requires i < 8
    ensures Sub(OutFirsts[i], OutMiddles[i]) == Shifted(Sub(Firsts[i], Middles[i]), Box10, 0, 0, ShiftJI[i])
    ensures Sub(OutLasts[i], OutMiddles[i]) == Shifted(Sub(Lasts[i], Middles[i]), Box10, ShiftJK[i], ShiftJK[i], 0)
  {
  }

  /** Every displacement of the in-box fixture lies inside half the box. */
  lemma TriadsInside()
    ensures forall i :: 0 <= i < 8 ==> InsideHalfBox(BondVector(C1(), C2(), i), Box10) && InsideHalfBox(BondVector(C3(), C2(), i), Box10)
  {
    forall i | 0 <= i < 8
      ensures InsideHalfBox(BondVector(C1(), C2(), i), Box10) && InsideHalfBox(BondVector(C3(), C2(), i), Box10)
    {
      Displacements(i);
      PointsInside(i);
    }
  }

  /** CalcAnglesOrthoInBox (test_kernels.cpp:311-326): no displacement reaches
      half the box of 10, so the ortho kernel gives the no-box angles. */
  lemma AnglesInBoxFixture(sqrt: real -> real, atan2: (real, real) -> real)
    ensures Angles(sqrt, atan2, C1(), C2(), C3(), Box10, 8) == AnglesNoBox(sqrt, atan2, C1(), C2(), C3(), 8)
  {
    TriadsInside();
    AnglesInsideMatchNoBox(sqrt, atan2, C1(), C2(), C3(), Box10, 8);
  }

  /** Triad i out of the box wraps back to triad i in the box. */
  lemma OutTriadWraps(i: nat)
    requires i < 8
    ensures Wrap(BondVector(OutC1(), OutC2(), i), Box10) == BondVector(C1(), C2(), i)
    ensures Wrap(BondVector(OutC3(), OutC2(), i), Box10) == BondVector(C3(), C2(), i)
  {
    Displacements(i);
    PointsInside(i);
    PointsShifted(i);
    WrapShiftedInside(Sub(Firsts[i], Middles[i]), Box10, 0, 0, ShiftJI[i]);
    WrapShiftedInside(Sub(Lasts[i], Middles[i]), Box10, ShiftJK[i], ShiftJK[i], 0);
  }

  /** CalcAnglesOrthoOutBox (test_kernels.cpp:328-344): the same triads moved
      by whole boxes give the same angles. */
  lemma AnglesOutBoxFixture(sqrt: real -> real, atan2: (real, real) -> real)
    ensures Angles(sqrt, atan2, OutC1(), OutC2(), OutC3(), Box10, 8) == AnglesNoBox(sqrt, atan2, C1(), C2(), C3(), 8)
  {
    forall i | 0 <= i < 8
      ensures Angles(sqrt, atan2, OutC1(), OutC2(), OutC3(), Box10, 8)[i] == AnglesNoBox(sqrt, atan2, C1(), C2(), C3(), 8)[i]
    {
      OutTriadWraps(i);
    }
  }

  // ---------------------------------------------------------------- the as-written angle kernel

  /** The intended ortho kernel's first in-box triad is the perpendicular pair. */
  lemma FirstInBoxTriad(sqrt: real -> real, atan2: (real, real) -> real)
    ensures Angles(sqrt, atan2, C1(), C2(), C3(), Box10, 8)[0] == Angle(sqrt, atan2, Down, Diagonal)
  {
    AnglesInBoxFixture(sqrt, atan2);
    RightTriad(sqrt, atan2, 0);
  }

  /** VanillaCalcAngles as written, on the in-box fixture, with rji and rjk
      starting out zero: every triad reports atan2(0, 0) = 0. */
  lemma AnglesAsWrittenZero(sqrt: real -> real, atan2: (real, real) -> real, pi: real)
    requires IsSqrt(sqrt) && Atan2AxisCases(atan2, pi)
    ensures forall i :: 0 <= i < 8 ==> AnglesAsWritten(sqrt, atan2, Zero, Zero, C1(), C2(), C3(), Box10, 8)[i] == 0.0
  {
    TriadsInside();
    AnglesAsWrittenIgnoreCoordinates(sqrt, atan2, Zero, Zero, C1(), C2(), C3(), Box10, 8);
    DegenerateArguments();
    AngleAxisCases(sqrt, atan2, pi, Zero, Zero);
  }

  /** So the first triad reports 0 ... */
  lemma AsWrittenFirstTriad(sqrt: real -> real, atan2: (real, real) -> real)
    requires Angle(sqrt, atan2, Zero, Zero) == 0.0
    ensures AnglesAsWritten(sqrt, atan2, Zero, Zero, C1(), C2(), C3(), Box10, 8)[0] == 0.0
  {
    TriadsInside();
    AnglesAsWrittenIgnoreCoordinates(sqrt, atan2, Zero, Zero, C1(), C2(), C3(), Box10, 8);
  }

  /** ... where the intended kernel reports pi/2 ... */
  lemma IntendedFirstTriad(sqrt: real -> real, atan2: (real, real) -> real, pi: real)
    requires Angle(sqrt, atan2, Down, Diagonal) == pi / 2.0
    ensures Angles(sqrt, atan2, C1(), C2(), C3(), Box10, 8)[0] == pi / 2.0
  {
    FirstInBoxTriad(sqrt, atan2);
  }

  /** ... so the two kernels disagree on the first triad. */
  lemma AnglesAsWrittenDiverge(sqrt: real -> real, atan2: (real, real) -> real, pi: real)
    requires IsSqrt(sqrt) && Atan2AxisCases(atan2, pi) && pi > 0.0
    ensures AnglesAsWritten(sqrt, atan2, Zero, Zero, C1(), C2(), C3(), Box10, 8)[0] != Angles(sqrt, atan2, C1(), C2(), C3(), Box10, 8)[0]
  {
    AxisAngles(sqrt, atan2, pi);
    AsWrittenFirstTriad(sqrt, atan2);
    IntendedFirstTriad(sqrt, atan2, pi);
  }
}
