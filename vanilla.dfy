/**
 The reference ("vanilla") kernels of src/compare/vanilla.h, against which
 the vectorised kernels are compared: bond lengths and bond angles over flat
 coordinate buffers (point i at 3*i, 3*i+1, 3*i+2), with or without an
 orthorhombic box. The ortho kernels wrap each axis of a displacement with
 the divide form r - round(r / box) * box and write one value per bond or
 angle through `*output++`, modelled as output[i].
 */
module Vanilla {
  import opened Reals
  import opened Libm
  import opened Geometry
  import opened Periodic
  import CalcDistances

  /** The box the ortho kernels read from `const T *box`: three edges they
      divide by. */
  predicate NonzeroBox(box: seq<real>) {
    |box| >= 3 && box[0] != 0.0 && box[1] != 0.0 && box[2] != 0.0
  }

  /** A box as wide as the C code expects: every edge positive. */
  predicate PositiveBox(box: seq<real>) {
    |box| >= 3 && box[0] > 0.0 && box[1] > 0.0 && box[2] > 0.0
  }

  /** The displacement after each axis is wrapped by the divide form. */
  function Wrap(d: Vec3, box: seq<real>): Vec3
    requires NonzeroBox(box)
  {
    Vec3(VanillaWrap(d.x, box[0]), VanillaWrap(d.y, box[1]), VanillaWrap(d.z, box[2]))
  }

  /** What an ortho kernel subtracts from each axis: round(r / box) * box. */
  function Correction(d: Vec3, box: seq<real>): Vec3
    requires NonzeroBox(box)
  {
    Vec3(Round(d.x / box[0]) as real * box[0], Round(d.y / box[1]) as real * box[1], Round(d.z / box[2]) as real * box[2])
  }

  lemma WrapIsCorrected(d: Vec3, box: seq<real>)
    requires NonzeroBox(box)
    ensures Wrap(d, box) == Sub(d, Correction(d, box))
  {
    VanillaWrapUnfold(d.x, box[0]);
    VanillaWrapUnfold(d.y, box[1]);
    VanillaWrapUnfold(d.z, box[2]);
  }

  /** One step of an axis loop: rij - round(rij / box) * box. */
  lemma WrapStep(d: Vec3, box: seq<real>, axis: nat, r: real, adj: int, wrapped: real)
    requires NonzeroBox(box) && axis < 3
    requires r == Axis(d, axis) && adj == Round(r / box[axis])
    requires wrapped == r - adj as real * box[axis]
    ensures wrapped == Axis(Wrap(d, box), axis)
  {
    VanillaWrapStep(r, box[axis], adj, wrapped);
    WrapAxis(d, box, axis);
  }

  lemma VanillaWrapStep(r: real, b: real, adj: int, wrapped: real)
    requires b != 0.0 && adj == Round(r / b) && wrapped == r - adj as real * b
    ensures wrapped == VanillaWrap(r, b)
  {
    VanillaWrapUnfold(r, b);
  }

  /** What that step subtracts is the axis's correction. */
  lemma CorrectionStep(d: Vec3, box: seq<real>, axis: nat, r: real, adj: int)
    requires NonzeroBox(box) && axis < 3
    requires r == Axis(d, axis) && adj == Round(r / box[axis])
    ensures adj as real * box[axis] == Axis(Correction(d, box), axis)
  {
    RoundedMultiple(r, Axis(d, axis), box[axis], adj);
    CorrectionAxis(d, box, axis);
  }

  lemma RoundedMultiple(r: real, s: real, b: real, adj: int)
    requires r == s && b != 0.0 && adj == Round(r / b)
    ensures adj as real * b == Round(s / b) as real * b
  {
    RoundQuotient(r, s, b);
  }

  lemma RoundQuotient(r: real, s: real, b: real)
    requires r == s && b != 0.0
    ensures Round(r / b) == Round(s / b)
  {
    assert r / b == s / b;
  }

  lemma WrapAxis(d: Vec3, box: seq<real>, axis: nat)
    requires NonzeroBox(box) && axis < 3
    ensures Axis(Wrap(d, box), axis) == VanillaWrap(Axis(d, axis), box[axis])
  {
    if axis == 0 {
    } else if axis == 1 {
    } else {
    }
  }

  lemma CorrectionAxis(d: Vec3, box: seq<real>, axis: nat)
    requires NonzeroBox(box) && axis < 3
    ensures Axis(Correction(d, box), axis) == Round(Axis(d, axis) / box[axis]) as real * box[axis]
  {
    if axis == 0 {
    } else if axis == 1 {
    } else {
    }
  }

  lemma AxisSub(a: Vec3, b: Vec3, axis: nat)
    requires axis < 3
    ensures Axis(Sub(a, b), axis) == Axis(a, axis) - Axis(b, axis)
  {
  }

  /** The first n points of a flat buffer. */
  function Points(buf: seq<real>, n: nat): (p: seq<Vec3>)
    requires 3 * n <= |buf|
    ensures |p| == n
  {
    seq(n, i requires 0 <= i < n => Triple(buf, i))
  }

  /** The displacement of bond i: coords1[i] - coords2[i]. */
  function BondVector(coords1: seq<real>, coords2: seq<real>, i: nat): Vec3
    requires 3 * i + 3 <= |coords1| && 3 * i + 3 <= |coords2|
  {
    Sub(Triple(coords1, i), Triple(coords2, i))
  }

  // ---------------------------------------------------------------- bonds

  /** What VanillaCalcBonds writes: sqrt of the squared wrapped displacement
      of each pair. */
  function Bonds(sqrt: real -> real, coords1: seq<real>, coords2: seq<real>, box: seq<real>, nvals: nat): (d: seq<real>)
    requires NonzeroBox(box) && 3 * nvals <= |coords1| && 3 * nvals <= |coords2|
    ensures |d| == nvals
  {
    seq(nvals, i requires 0 <= i < nvals => sqrt(NormSq(Wrap(BondVector(coords1, coords2, i), box))))
  }

  /** What VanillaCalcBondsNoBox writes: the plain length of each displacement. */
  function BondsNoBox(sqrt: real -> real, c1: seq<real>, c2: seq<real>, nvals: nat): (d: seq<real>)
    requires 3 * nvals <= |c1| && 3 * nvals <= |c2|
    ensures |d| == nvals
  {
    seq(nvals, i requires 0 <= i < nvals => sqrt(NormSq(BondVector(c1, c2, i))))
  }

  /** One pass of an axis loop adds the square of that axis. */
  lemma Accumulate(w: Vec3, j: nat, r2: real, rij: real)
    requires j < 3 && r2 == PartialNormSq(w, j) && rij == Axis(w, j)
    ensures r2 + rij * rij == PartialNormSq(w, j + 1)
  {
  }

  /** The axis loop of VanillaCalcBonds and VanillaCalcBondsIdx: the wrapped
      displacement from point p2 of coords2 to point p1 of coords1, squared
      axis by axis and summed. */
  method WrappedR2(coords1: seq<real>, coords2: seq<real>, p1: nat, p2: nat, box: seq<real>) returns (r2: real)
    requires NonzeroBox(box) && 3 * p1 + 3 <= |coords1| && 3 * p2 + 3 <= |coords2|
    ensures r2 == NormSq(Wrap(Sub(Triple(coords1, p1), Triple(coords2, p2)), box))
  {
    ghost var d := Sub(Triple(coords1, p1), Triple(coords2, p2));
    r2 := 0.0;
    for j := 0 to 3
      invariant r2 == PartialNormSq(Wrap(d, box), j)
    {
      var rij := coords1[p1 * 3 + j] - coords2[p2 * 3 + j];
      AxisSub(Triple(coords1, p1), Triple(coords2, p2), j);
      var adj := Round(rij / box[j]);
      rij := rij - adj as real * box[j];
      WrapStep(d, box, j, coords1[p1 * 3 + j] - coords2[p2 * 3 + j], adj, rij);
      Accumulate(Wrap(d, box), j, r2, rij);
      r2 := r2 + rij * rij;
    }
    PartialNormSqComplete(Wrap(d, box));
  }

  /** The axis loop of VanillaCalcBondsNoBox: the squared displacement of
      pair i. */
  method PlainR2(c1: seq<real>, c2: seq<real>, i: nat) returns (r2: real)
    requires 3 * i + 3 <= |c1| && 3 * i + 3 <= |c2|
    ensures r2 == NormSq(BondVector(c1, c2, i))
  {
    ghost var d := BondVector(c1, c2, i);
    r2 := 0.0;
    for j := 0 to 3
      invariant r2 == PartialNormSq(d, j)
    {
      var rij := c1[i * 3 + j] - c2[i * 3 + j];
      AxisSub(Triple(c1, i), Triple(c2, i), j);
      Accumulate(d, j, r2, rij);
      r2 := r2 + rij * rij;
    }
    PartialNormSqComplete(d);
  }

  /** VanillaCalcBonds: for each pair, the three axes are wrapped and their
      squares summed, then the square root is written out. */
  method VanillaCalcBonds(sqrt: real -> real, coords1: seq<real>, coords2: seq<real>, box: seq<real>, nvals: nat, output: array<real>)
    requires NonzeroBox(box)
    requires 3 * nvals <= |coords1| && 3 * nvals <= |coords2| && nvals <= output.Length
    modifies output
    ensures output[..nvals] == Bonds(sqrt, coords1, coords2, box, nvals)
    ensures output[nvals..] == old(output[nvals..])
  {
    for i := 0 to nvals
      invariant output[..i] == Bonds(sqrt, coords1, coords2, box, nvals)[..i]
      invariant output[nvals..] == old(output[nvals..])
    {
      var r2 := WrappedR2(coords1, coords2, i, i, box);
      Congruence(sqrt, r2, NormSq(Wrap(BondVector(coords1, coords2, i), box)));
      output[i] := sqrt(r2);
    }
  }

  /** VanillaCalcBondsNoBox: as VanillaCalcBonds without the wrap. */
  method VanillaCalcBondsNoBox(sqrt: real -> real, c1: seq<real>, c2: seq<real>, nvals: nat, out: array<real>)
    requires 3 * nvals <= |c1| && 3 * nvals <= |c2| && nvals <= out.Length
    modifies out
    ensures out[..nvals] == BondsNoBox(sqrt, c1, c2, nvals)
    ensures out[nvals..] == old(out[nvals..])
  {
    for i := 0 to nvals
      invariant out[..i] == BondsNoBox(sqrt, c1, c2, nvals)[..i]
      invariant out[nvals..] == old(out[nvals..])
    {
      var r2 := PlainR2(c1, c2, i);
      Congruence(sqrt, r2, NormSq(BondVector(c1, c2, i)));
      out[i] := sqrt(r2);
    }
  }

  // ---------------------------------------------------------------- indexed bonds

  const UintModulus: nat := 0x1_0000_0000

  /** `unsigned int b = idx[k]`: a size_t index narrowed to 32 bits. */
  function Narrow(k: nat): (b: nat)
    ensures b < UintModulus
    ensures k < UintModulus ==> b == k
  {
    k % UintModulus
  }

  /** Every narrowed index of the first nvals pairs names a point of coords. */
  predicate IndicesInRange(coords: seq<real>, idx: seq<nat>, nvals: nat) {
    2 * nvals <= |idx| && forall k :: 0 <= k < 2 * nvals ==> 3 * Narrow(idx[k]) + 3 <= |coords|
  }

  /** What VanillaCalcBondsIdx writes: the wrapped length between the two
      points that entries 2i and 2i+1 of idx name. */
  function BondsIdx(sqrt: real -> real, coords: seq<real>, idx: seq<nat>, box: seq<real>, nvals: nat): (d: seq<real>)
    requires NonzeroBox(box) && IndicesInRange(coords, idx, nvals)
    ensures |d| == nvals
  {
    seq(nvals, i requires 0 <= i < nvals =>
      sqrt(NormSq(Wrap(Sub(Triple(coords, Narrow(idx[2 * i])), Triple(coords, Narrow(idx[2 * i + 1]))), box))))
  }

  /** The points that entries h, h + 2, h + 4, ... of idx name, gathered into
      a flat buffer: h == 0 gives the first atom of each bond, h == 1 the
      second. */
  function Gather(coords: seq<real>, idx: seq<nat>, h: nat, nvals: nat): (g: seq<real>)
    requires h < 2 && IndicesInRange(coords, idx, nvals)
    ensures |g| == 3 * nvals
    ensures forall i :: 0 <= i < nvals ==> Triple(g, i) == Triple(coords, Narrow(idx[2 * i + h]))
  {
    if nvals == 0 then []
    else
      var init := Gather(coords, idx, h, nvals - 1);
      var p := Triple(coords, Narrow(idx[2 * (nvals - 1) + h]));
      AppendTriple(init, p);
      init + [p.x, p.y, p.z]
  }

  /** Appending a point to a flat buffer of n points keeps the first n and
      makes it point n. */
  lemma AppendTriple(buf: seq<real>, p: Vec3)
    requires |buf| % 3 == 0
    ensures forall i :: 0 <= i < |buf| / 3 ==> Triple(buf + [p.x, p.y, p.z], i) == Triple(buf, i)
    ensures Triple(buf + [p.x, p.y, p.z], |buf| / 3) == p
  {
  }

  /** VanillaCalcBondsIdx: bond i joins the points idx[2i] and idx[2i+1]. */
  method VanillaCalcBondsIdx(sqrt: real -> real, coords: seq<real>, idx: seq<nat>, box: seq<real>, nvals: nat, output: array<real>)
    requires NonzeroBox(box) && IndicesInRange(coords, idx, nvals) && nvals <= output.Length
    modifies output
    ensures output[..nvals] == BondsIdx(sqrt, coords, idx, box, nvals)
    ensures output[nvals..] == old(output[nvals..])
  {
    for i := 0 to nvals
      invariant output[..i] == BondsIdx(sqrt, coords, idx, box, nvals)[..i]
      invariant output[nvals..] == old(output[nvals..])
    {
      var b1 := Narrow(idx[2 * i]);
      var b2 := Narrow(idx[2 * i + 1]);
      var r2 := WrappedR2(coords, coords, b1, b2, box);
      Congruence(sqrt, r2, NormSq(Wrap(Sub(Triple(coords, b1), Triple(coords, b2)), box)));
      output[i] := sqrt(r2);
    }
  }

  // ---------------------------------------------------------------- angles

  /** The angle at the middle point j of the triad (i, j, k), from the
      displacements rji = i - j and rjk = k - j. */
  function AnglesNoBox(sqrt: real -> real, atan2: (real, real) -> real, coords1: seq<real>, coords2: seq<real>, coords3: seq<real>, nvals: nat): (a: seq<real>)
    requires 3 * nvals <= |coords1| && 3 * nvals <= |coords2| && 3 * nvals <= |coords3|
    ensures |a| == nvals
  {
    seq(nvals, i requires 0 <= i < nvals =>
      Angle(sqrt, atan2, BondVector(coords1, coords2, i), BondVector(coords3, coords2, i)))
  }

  /** The intended result of VanillaCalcAngles: the angle between the two
      wrapped displacements. */
  function Angles(sqrt: real -> real, atan2: (real, real) -> real, coords1: seq<real>, coords2: seq<real>, coords3: seq<real>, box: seq<real>, nvals: nat): (a: seq<real>)
    requires NonzeroBox(box)
    requires 3 * nvals <= |coords1| && 3 * nvals <= |coords2| && 3 * nvals <= |coords3|
    ensures |a| == nvals
  {
    seq(nvals, i requires 0 <= i < nvals =>
      Angle(sqrt, atan2, Wrap(BondVector(coords1, coords2, i), box), Wrap(BondVector(coords3, coords2, i), box)))
  }

  /** A three-element work array holding the components of v. */
  predicate Holds(a: array<real>, v: Vec3)
    reads a
  {
    a.Length == 3 && a[0] == v.x && a[1] == v.y && a[2] == v.z
  }

  /** The tail both angle kernels share: x is the dot product, xp the cross
      product, y its length, and the angle atan2(y, x). */
  method AngleOf(sqrt: real -> real, atan2: (real, real) -> real, rji: array<real>, rjk: array<real>, xp: array<real>, ghost u: Vec3, ghost v: Vec3) returns (theta: real)
    requires Holds(rji, u) && Holds(rjk, v) && xp.Length == 3
    requires xp != rji && xp != rjk
    modifies xp
    ensures Holds(xp, Cross(u, v))
    ensures theta == Angle(sqrt, atan2, u, v)
  {
    var x := rji[0] * rjk[0] + rji[1] * rjk[1] + rji[2] * rjk[2];
    xp[0] := rji[1] * rjk[2] - rji[2] * rjk[1];
    xp[1] := -rji[0] * rjk[2] + rji[2] * rjk[0];
    xp[2] := rji[0] * rjk[1] - rji[1] * rjk[0];
    assert Vec3(xp[0], xp[1], xp[2]) == Cross(u, v);
    var ysq := xp[0] * xp[0] + xp[1] * xp[1] + xp[2] * xp[2];
    assert ysq == NormSq(Cross(u, v));
    Congruence(sqrt, ysq, NormSq(Cross(u, v)));
    var y := sqrt(ysq);
    assert x == Dot(u, v);
    Congruence2(atan2, y, sqrt(NormSq(Cross(u, v))), x, Dot(u, v));
    theta := atan2(y, x);
  }

  /** The axis loop of VanillaCalcAnglesNoBox: rji and rjk receive the two
      displacements of triad i. */
  method PlainDisplacements(coords1: seq<real>, coords2: seq<real>, coords3: seq<real>, i: nat, rji: array<real>, rjk: array<real>)
    requires 3 * i + 3 <= |coords1| && 3 * i + 3 <= |coords2| && 3 * i + 3 <= |coords3|
    requires rji.Length == 3 && rjk.Length == 3 && rji != rjk
    modifies rji, rjk
    ensures Holds(rji, BondVector(coords1, coords2, i)) && Holds(rjk, BondVector(coords3, coords2, i))
  {
    ghost var u, v := BondVector(coords1, coords2, i), BondVector(coords3, coords2, i);
    for j := 0 to 3
      invariant forall k :: 0 <= k < j ==> rji[k] == Axis(u, k) && rjk[k] == Axis(v, k)
    {
      rji[j] := coords1[i * 3 + j] - coords2[i * 3 + j];
      rjk[j] := coords3[i * 3 + j] - coords2[i * 3 + j];
      AxisSub(Triple(coords1, i), Triple(coords2, i), j);
      AxisSub(Triple(coords3, i), Triple(coords2, i), j);
    }
  }

  /** The axis loop of VanillaCalcAngles as intended: rji and rjk receive the
      two wrapped displacements of triad i. */
  method WrappedDisplacements(coords1: seq<real>, coords2: seq<real>, coords3: seq<real>, box: seq<real>, i: nat, rji: array<real>, rjk: array<real>)
    requires NonzeroBox(box)
    requires 3 * i + 3 <= |coords1| && 3 * i + 3 <= |coords2| && 3 * i + 3 <= |coords3|
    requires rji.Length == 3 && rjk.Length == 3 && rji != rjk
    modifies rji, rjk
    ensures Holds(rji, Wrap(BondVector(coords1, coords2, i), box)) && Holds(rjk, Wrap(BondVector(coords3, coords2, i), box))
  {
    ghost var u, v := BondVector(coords1, coords2, i), BondVector(coords3, coords2, i);
    for j := 0 to 3
      invariant forall k :: 0 <= k < j ==> rji[k] == Axis(Wrap(u, box), k) && rjk[k] == Axis(Wrap(v, box), k)
    {
      var temp := coords1[i * 3 + j] - coords2[i * 3 + j];
      AxisSub(Triple(coords1, i), Triple(coords2, i), j);
      var adj := Round(temp / box[j]);
      rji[j] := temp - adj as real * box[j];
      WrapStep(u, box, j, temp, adj, rji[j]);
      temp := coords3[i * 3 + j] - coords2[i * 3 + j];
      AxisSub(Triple(coords3, i), Triple(coords2, i), j);
      adj := Round(temp / box[j]);
      rjk[j] := temp - adj as real * box[j];
      WrapStep(v, box, j, temp, adj, rjk[j]);
    }
  }

  /** VanillaCalcAnglesNoBox: the two displacements are formed axis by axis,
      then the angle between them is written out. */
  method VanillaCalcAnglesNoBox(sqrt: real -> real, atan2: (real, real) -> real, coords1: seq<real>, coords2: seq<real>, coords3: seq<real>, nvals: nat, output: array<real>)
    requires 3 * nvals <= |coords1| && 3 * nvals <= |coords2| && 3 * nvals <= |coords3| && nvals <= output.Length
    modifies output
    ensures output[..nvals] == AnglesNoBox(sqrt, atan2, coords1, coords2, coords3, nvals)
    ensures output[nvals..] == old(output[nvals..])
  {
    var rji := new real[3];
    var rjk := new real[3];
    var xp := new real[3];
    for i := 0 to nvals
      invariant output[..i] == AnglesNoBox(sqrt, atan2, coords1, coords2, coords3, nvals)[..i]
      invariant output[nvals..] == old(output[nvals..])
    {
      PlainDisplacements(coords1, coords2, coords3, i, rji, rjk);
      var theta := AngleOf(sqrt, atan2, rji, rjk, xp, BondVector(coords1, coords2, i), BondVector(coords3, coords2, i));
      output[i] := theta;
    }
  }

  /** VanillaCalcAngles as intended: each displacement is formed and then
      wrapped, rji[j] = temp - round(temp / box[j]) * box[j]. */
  method VanillaCalcAnglesIntended(sqrt: real -> real, atan2: (real, real) -> real, coords1: seq<real>, coords2: seq<real>, coords3: seq<real>, box: seq<real>, nvals: nat, output: array<real>)
    requires NonzeroBox(box)
    requires 3 * nvals <= |coords1| && 3 * nvals <= |coords2| && 3 * nvals <= |coords3| && nvals <= output.Length
    modifies output
    ensures output[..nvals] == Angles(sqrt, atan2, coords1, coords2, coords3, box, nvals)
    ensures output[nvals..] == old(output[nvals..])
  {
    var rji := new real[3];
    var rjk := new real[3];
    var xp := new real[3];
    for i := 0 to nvals
      invariant output[..i] == Angles(sqrt, atan2, coords1, coords2, coords3, box, nvals)[..i]
      invariant output[nvals..] == old(output[nvals..])
    {
      WrappedDisplacements(coords1, coords2, coords3, box, i, rji, rjk);
      var theta := AngleOf(sqrt, atan2, rji, rjk, xp, Wrap(BondVector(coords1, coords2, i), box), Wrap(BondVector(coords3, coords2, i), box));
      output[i] := theta;
    }
  }

  // ---------------------------------------------------------------- angles, as written

  /** The contents of rji (or rjk) after n passes of VanillaCalcAngles as
      written: the arrays start with whatever `g` they hold and each pass only
      subtracts the correction of that pass's displacement. */
  function AsWrittenVector(g: Vec3, a: seq<real>, b: seq<real>, box: seq<real>, n: nat): Vec3
    requires NonzeroBox(box) && 3 * n <= |a| && 3 * n <= |b|
  {
    if n == 0 then g
    else Sub(AsWrittenVector(g, a, b, box, n - 1), Correction(BondVector(a, b, n - 1), box))
  }

  /** What VanillaCalcAngles as written outputs, given the initial contents
      gji and gjk of its uninitialised rji and rjk. */
  function AnglesAsWritten(sqrt: real -> real, atan2: (real, real) -> real, gji: Vec3, gjk: Vec3, coords1: seq<real>, coords2: seq<real>, coords3: seq<real>, box: seq<real>, nvals: nat): (a: seq<real>)
    requires NonzeroBox(box)
    requires 3 * nvals <= |coords1| && 3 * nvals <= |coords2| && 3 * nvals <= |coords3|
    ensures |a| == nvals
  {
    seq(nvals, i requires 0 <= i < nvals =>
      Angle(sqrt, atan2, AsWrittenVector(gji, coords1, coords2, box, i + 1), AsWrittenVector(gjk, coords3, coords2, box, i + 1)))
  }

  /** The axis loop of VanillaCalcAngles as written: `rji[j] -= adj * box[j]`
      subtracts the correction of each displacement from whatever rji and rjk
      already hold. */
  method SubtractCorrections(coords1: seq<real>, coords2: seq<real>, coords3: seq<real>, box: seq<real>, i: nat, rji: array<real>, rjk: array<real>, ghost gji: Vec3, ghost gjk: Vec3)
    requires NonzeroBox(box)
    requires 3 * i + 3 <= |coords1| && 3 * i + 3 <= |coords2| && 3 * i + 3 <= |coords3|
    requires rji != rjk
    requires Holds(rji, AsWrittenVector(gji, coords1, coords2, box, i))
    requires Holds(rjk, AsWrittenVector(gjk, coords3, coords2, box, i))
    modifies rji, rjk
    ensures Holds(rji, AsWrittenVector(gji, coords1, coords2, box, i + 1))
    ensures Holds(rjk, AsWrittenVector(gjk, coords3, coords2, box, i + 1))
  {
    ghost var u, v := BondVector(coords1, coords2, i), BondVector(coords3, coords2, i);
    ghost var pji, pjk := AsWrittenVector(gji, coords1, coords2, box, i), AsWrittenVector(gjk, coords3, coords2, box, i);
    ghost var nji, njk := AsWrittenVector(gji, coords1, coords2, box, i + 1), AsWrittenVector(gjk, coords3, coords2, box, i + 1);
    for j := 0 to 3
      invariant forall k :: 0 <= k < j ==> rji[k] == Axis(nji, k) && rjk[k] == Axis(njk, k)
      invariant forall k :: j <= k < 3 ==> rji[k] == Axis(pji, k) && rjk[k] == Axis(pjk, k)
    {
      var temp := coords1[i * 3 + j] - coords2[i * 3 + j];
      AxisSub(Triple(coords1, i), Triple(coords2, i), j);
      var adj := Round(temp / box[j]);
      CorrectionStep(u, box, j, temp, adj);
      AsWrittenAxis(gji, coords1, coords2, box, i, j, adj as real * box[j]);
      rji[j] := rji[j] - adj as real * box[j];
      temp := coords3[i * 3 + j] - coords2[i * 3 + j];
      AxisSub(Triple(coords3, i), Triple(coords2, i), j);
      adj := Round(temp / box[j]);
      CorrectionStep(v, box, j, temp, adj);
      AsWrittenAxis(gjk, coords3, coords2, box, i, j, adj as real * box[j]);
      rjk[j] := rjk[j] - adj as real * box[j];
    }
  }

  /** One axis of one pass: the axis of the contents after pass i is the axis
      before it less that axis's correction. */
  lemma AsWrittenAxis(g: Vec3, a: seq<real>, b: seq<real>, box: seq<real>, i: nat, axis: nat, correction: real)
    requires NonzeroBox(box) && 3 * i + 3 <= |a| && 3 * i + 3 <= |b| && axis < 3
    requires correction == Axis(Correction(BondVector(a, b, i), box), axis)
    ensures Axis(AsWrittenVector(g, a, b, box, i + 1), axis) == Axis(AsWrittenVector(g, a, b, box, i), axis) - correction
  {
    AxisSub(AsWrittenVector(g, a, b, box, i), Correction(BondVector(a, b, i), box), axis);
  }

  /** VanillaCalcAngles exactly as written: `rji[j] -= adj * box[j]` on arrays
      never assigned the displacement. The ghost results are the arrays'
      initial contents. */
  method VanillaCalcAnglesAsWritten(sqrt: real -> real, atan2: (real, real) -> real, coords1: seq<real>, coords2: seq<real>, coords3: seq<real>, box: seq<real>, nvals: nat, output: array<real>)
    returns (ghost gji: Vec3, ghost gjk: Vec3)
    requires NonzeroBox(box)
    requires 3 * nvals <= |coords1| && 3 * nvals <= |coords2| && 3 * nvals <= |coords3| && nvals <= output.Length
    modifies output
    ensures output[..nvals] == AnglesAsWritten(sqrt, atan2, gji, gjk, coords1, coords2, coords3, box, nvals)
    ensures output[nvals..] == old(output[nvals..])
  {
    var rji := new real[3];
    var rjk := new real[3];
    var xp := new real[3];
    gji, gjk := Vec3(rji[0], rji[1], rji[2]), Vec3(rjk[0], rjk[1], rjk[2]);
    for i := 0 to nvals
      invariant output[..i] == AnglesAsWritten(sqrt, atan2, gji, gjk, coords1, coords2, coords3, box, nvals)[..i]
      invariant output[nvals..] == old(output[nvals..])
      invariant Holds(rji, AsWrittenVector(gji, coords1, coords2, box, i))
      invariant Holds(rjk, AsWrittenVector(gjk, coords3, coords2, box, i))
    {
      SubtractCorrections(coords1, coords2, coords3, box, i, rji, rjk, gji, gjk);
      var theta := AngleOf(sqrt, atan2, rji, rjk, xp, AsWrittenVector(gji, coords1, coords2, box, i + 1), AsWrittenVector(gjk, coords3, coords2, box, i + 1));
      output[i] := theta;
    }
  }

  // ---------------------------------------------------------------- properties

  /** With every edge above FLT_EPSILON the divide-form wrap and
      minimum_image (with the exact reciprocal of each edge) agree. */
  lemma WrapIsImage(d: Vec3, box: seq<real>)
    requires |box| >= 3 && box[0] > FltEpsilon && box[1] > FltEpsilon && box[2] > FltEpsilon
    ensures Wrap(d, box) == CalcDistances.Image(CalcDistances.Ortho(box), d)
  {
    CalcDistances.InverseExact(box[0]);
    CalcDistances.InverseExact(box[1]);
    CalcDistances.InverseExact(box[2]);
    MinImageIsVanillaWrap(d.x, box[0], CalcDistances.Inverse(box[0]));
    MinImageIsVanillaWrap(d.y, box[1], CalcDistances.Inverse(box[1]));
    MinImageIsVanillaWrap(d.z, box[2], CalcDistances.Inverse(box[2]));
  }

  /** VanillaCalcBonds is the reference for _calc_bond_distance_ortho: over
      exact reals they report the same lengths for a box whose edges all
      exceed FLT_EPSILON. */
  lemma BondsMatchOrtho(sqrt: real -> real, coords1: seq<real>, coords2: seq<real>, box: seq<real>, nvals: nat)
    requires |box| >= 3 && box[0] > FltEpsilon && box[1] > FltEpsilon && box[2] > FltEpsilon
    requires 3 * nvals <= |coords1| && 3 * nvals <= |coords2|
    ensures Bonds(sqrt, coords1, coords2, box, nvals)
      == CalcDistances.BondDistances(sqrt, CalcDistances.Ortho(box), Points(coords1, nvals), Points(coords2, nvals), nvals)
  {
    forall i | 0 <= i < nvals
      ensures Bonds(sqrt, coords1, coords2, box, nvals)[i]
        == CalcDistances.BondDistances(sqrt, CalcDistances.Ortho(box), Points(coords1, nvals), Points(coords2, nvals), nvals)[i]
    {
      WrapIsImage(BondVector(coords1, coords2, i), box);
    }
  }

  /** VanillaCalcBondsNoBox is the reference for _calc_bond_distance. */
  lemma BondsNoBoxMatch(sqrt: real -> real, c1: seq<real>, c2: seq<real>, nvals: nat)
    requires 3 * nvals <= |c1| && 3 * nvals <= |c2|
    ensures BondsNoBox(sqrt, c1, c2, nvals)
      == CalcDistances.BondDistances(sqrt, CalcDistances.NoBox, Points(c1, nvals), Points(c2, nvals), nvals)
  {
    forall i | 0 <= i < nvals
      ensures BondsNoBox(sqrt, c1, c2, nvals)[i]
        == CalcDistances.BondDistances(sqrt, CalcDistances.NoBox, Points(c1, nvals), Points(c2, nvals), nvals)[i]
    {
      var d := BondVector(c1, c2, i);
      assert CalcDistances.Image(CalcDistances.NoBox, d) == d;
    }
  }

  /** Reversing a displacement reverses its wrap. */
  lemma WrapOdd(d: Vec3, box: seq<real>)
    requires NonzeroBox(box)
    ensures Wrap(Neg(d), box) == Neg(Wrap(d, box))
  {
    VanillaWrapOdd(d.x, box[0]);
    VanillaWrapOdd(d.y, box[1]);
    VanillaWrapOdd(d.z, box[2]);
  }

  lemma WrapLengthOdd(d: Vec3, box: seq<real>)
    requires NonzeroBox(box)
    ensures NormSq(Wrap(Neg(d), box)) == NormSq(Wrap(d, box))
  {
    WrapOdd(d, box);
    NormSqNeg(Wrap(d, box));
  }

  lemma BondSymmetric(sqrt: real -> real, coords1: seq<real>, coords2: seq<real>, box: seq<real>, i: nat)
    requires NonzeroBox(box) && 3 * i + 3 <= |coords1| && 3 * i + 3 <= |coords2|
    ensures sqrt(NormSq(Wrap(BondVector(coords1, coords2, i), box))) == sqrt(NormSq(Wrap(BondVector(coords2, coords1, i), box)))
  {
    var d := BondVector(coords2, coords1, i);
    SubAntisymmetric(Triple(coords1, i), Triple(coords2, i));
    WrapLengthOdd(d, box);
    Congruence(sqrt, NormSq(Wrap(Neg(d), box)), NormSq(Wrap(d, box)));
  }

  /** Swapping coords1 and coords2 leaves every bond length unchanged. */
  lemma BondsSymmetric(sqrt: real -> real, coords1: seq<real>, coords2: seq<real>, box: seq<real>, nvals: nat)
    requires NonzeroBox(box) && 3 * nvals <= |coords1| && 3 * nvals <= |coords2|
    ensures Bonds(sqrt, coords1, coords2, box, nvals) == Bonds(sqrt, coords2, coords1, box, nvals)
  {
    forall i | 0 <= i < nvals
      ensures Bonds(sqrt, coords1, coords2, box, nvals)[i] == Bonds(sqrt, coords2, coords1, box, nvals)[i]
    {
      BondSymmetric(sqrt, coords1, coords2, box, i);
    }
  }

  /** VanillaCalcBondsIdx is VanillaCalcBonds run on the gathered points:
      the first atoms of the bonds against the second atoms. */
  lemma BondsIdxAsBonds(sqrt: real -> real, coords: seq<real>, idx: seq<nat>, box: seq<real>, nvals: nat)
    requires NonzeroBox(box) && IndicesInRange(coords, idx, nvals)
    ensures BondsIdx(sqrt, coords, idx, box, nvals)
      == Bonds(sqrt, Gather(coords, idx, 0, nvals), Gather(coords, idx, 1, nvals), box, nvals)
  {
    var g1, g2 := Gather(coords, idx, 0, nvals), Gather(coords, idx, 1, nvals);
    forall i | 0 <= i < nvals
      ensures BondsIdx(sqrt, coords, idx, box, nvals)[i] == Bonds(sqrt, g1, g2, box, nvals)[i]
    {
      assert BondVector(g1, g2, i) == Sub(Triple(coords, Narrow(idx[2 * i])), Triple(coords, Narrow(idx[2 * i + 1])));
    }
  }

  /** With the identity index list idx[k] == k, the gathered points are the
      even and the odd points of coords, so bond i of VanillaCalcBondsIdx
      joins points 2i and 2i+1. */
  lemma BondsIdxIdentity(sqrt: real -> real, coords: seq<real>, idx: seq<nat>, box: seq<real>, nvals: nat)
    requires NonzeroBox(box) && 6 * nvals <= |coords| && 2 * nvals <= |idx| && 2 * nvals <= UintModulus
    requires forall k :: 0 <= k < 2 * nvals ==> idx[k] == k
    ensures IndicesInRange(coords, idx, nvals)
    ensures forall i :: 0 <= i < nvals ==>
      Triple(Gather(coords, idx, 0, nvals), i) == Triple(coords, 2 * i) &&
      Triple(Gather(coords, idx, 1, nvals), i) == Triple(coords, 2 * i + 1)
    ensures forall i :: 0 <= i < nvals ==>
      BondsIdx(sqrt, coords, idx, box, nvals)[i] == sqrt(NormSq(Wrap(Sub(Triple(coords, 2 * i), Triple(coords, 2 * i + 1)), box)))
  {
    forall k | 0 <= k < 2 * nvals
      ensures Narrow(idx[k]) == k && 3 * Narrow(idx[k]) + 3 <= |coords|
    {
    }
    var g1, g2 := Gather(coords, idx, 0, nvals), Gather(coords, idx, 1, nvals);
    BondsIdxAsBonds(sqrt, coords, idx, box, nvals);
    forall i | 0 <= i < nvals
      ensures Triple(g1, i) == Triple(coords, 2 * i) && Triple(g2, i) == Triple(coords, 2 * i + 1)
      ensures BondsIdx(sqrt, coords, idx, box, nvals)[i] == sqrt(NormSq(Wrap(Sub(Triple(coords, 2 * i), Triple(coords, 2 * i + 1)), box)))
    {
      assert Narrow(idx[2 * i]) == 2 * i && Narrow(idx[2 * i + 1]) == 2 * i + 1;
      assert BondVector(g1, g2, i) == Sub(Triple(coords, 2 * i), Triple(coords, 2 * i + 1));
    }
  }

  /** The two halves of a box. */
  function HalfEdges(box: seq<real>): Vec3
    requires |box| >= 3
  {
    Vec3(box[0] / 2.0, box[1] / 2.0, box[2] / 2.0)
  }

  /** In a box with positive edges a wrapped displacement is no longer than
      half the box's diagonal. */
  lemma WrapBound(d: Vec3, box: seq<real>)
    requires PositiveBox(box)
    ensures NormSq(Wrap(d, box)) <= NormSq(HalfEdges(box))
  {
    NormSqLe(Wrap(d, box), HalfEdges(box));
  }

  lemma BondBounded(sqrt: real -> real, d: Vec3, box: seq<real>)
    requires IsSqrt(sqrt) && PositiveBox(box)
    ensures 0.0 <= sqrt(NormSq(Wrap(d, box))) <= sqrt(NormSq(HalfEdges(box)))
  {
    WrapBound(d, box);
    SqrtMonotone(sqrt, NormSq(Wrap(d, box)), NormSq(HalfEdges(box)));
  }

  /** Every bond length VanillaCalcBonds reports for a box with positive edges
      is nonnegative and at most half the box's diagonal. */
  lemma BondsBounded(sqrt: real -> real, coords1: seq<real>, coords2: seq<real>, box: seq<real>, nvals: nat)
    requires IsSqrt(sqrt) && PositiveBox(box) && 3 * nvals <= |coords1| && 3 * nvals <= |coords2|
    ensures forall i :: 0 <= i < nvals ==>
      0.0 <= Bonds(sqrt, coords1, coords2, box, nvals)[i] <= sqrt(NormSq(HalfEdges(box)))
  {
    forall i | 0 <= i < nvals
      ensures 0.0 <= Bonds(sqrt, coords1, coords2, box, nvals)[i] <= sqrt(NormSq(HalfEdges(box)))
    {
      BondBounded(sqrt, BondVector(coords1, coords2, i), box);
    }
  }

  /** A displacement moved by whole boxes along each axis. */
  function Shifted(d: Vec3, box: seq<real>, kx: int, ky: int, kz: int): Vec3
    requires |box| >= 3
  {
    Vec3(d.x + kx as real * box[0], d.y + ky as real * box[1], d.z + kz as real * box[2])
  }

  /** No axis of d lies exactly halfway between two images. */
  predicate NoTie(d: Vec3, box: seq<real>)
    requires NonzeroBox(box)
  {
    !IsHalfInteger(d.x / box[0]) && !IsHalfInteger(d.y / box[1]) && !IsHalfInteger(d.z / box[2])
  }

  /** Moving a displacement by whole boxes does not change its wrap, except
      at a halfway case (Periodic.VanillaWrapShiftFailsAtTie). */
  lemma WrapPeriodic(d: Vec3, box: seq<real>, kx: int, ky: int, kz: int)
    requires NonzeroBox(box) && NoTie(d, box)
    ensures Wrap(Shifted(d, box, kx, ky, kz), box) == Wrap(d, box)
  {
    var s := Shifted(d, box, kx, ky, kz);
    VanillaWrapShift(d.x, box[0], kx, s.x);
    VanillaWrapShift(d.y, box[1], ky, s.y);
    VanillaWrapShift(d.z, box[2], kz, s.z);
  }

  /** Every axis of d strictly within half an edge. */
  predicate InsideHalfBox(d: Vec3, box: seq<real>)
    requires |box| >= 3
  {
    && -box[0] / 2.0 < d.x < box[0] / 2.0
    && -box[1] / 2.0 < d.y < box[1] / 2.0
    && -box[2] / 2.0 < d.z < box[2] / 2.0
  }

  /** A displacement strictly inside half the box is neither wrapped nor
      corrected. */
  lemma InsideUnwrapped(d: Vec3, box: seq<real>)
    requires PositiveBox(box) && InsideHalfBox(d, box)
    ensures Wrap(d, box) == d && Correction(d, box) == Zero
  {
    VanillaWrapInside(d.x, box[0]);
    VanillaWrapInside(d.y, box[1]);
    VanillaWrapInside(d.z, box[2]);
  }

  /** A displacement strictly inside half the box is no halfway case. */
  lemma InsideNoTie(d: Vec3, box: seq<real>)
    requires PositiveBox(box) && InsideHalfBox(d, box)
    ensures NoTie(d, box)
  {
    VanillaWrapInside(d.x, box[0]);
    VanillaWrapInside(d.y, box[1]);
    VanillaWrapInside(d.z, box[2]);
  }

  /** A displacement that is one strictly inside half the box moved by whole
      boxes wraps back to it. */
  lemma WrapShiftedInside(d: Vec3, box: seq<real>, kx: int, ky: int, kz: int)
    requires PositiveBox(box) && InsideHalfBox(d, box)
    ensures Wrap(Shifted(d, box, kx, ky, kz), box) == d
  {
    InsideNoTie(d, box);
    WrapPeriodic(d, box, kx, ky, kz);
    InsideUnwrapped(d, box);
  }

  /** Triads whose displacements all lie inside half the box get the same
      angles from VanillaCalcAngles as from VanillaCalcAnglesNoBox. */
  lemma AnglesInsideMatchNoBox(sqrt: real -> real, atan2: (real, real) -> real, coords1: seq<real>, coords2: seq<real>, coords3: seq<real>, box: seq<real>, nvals: nat)
    requires PositiveBox(box)
    requires 3 * nvals <= |coords1| && 3 * nvals <= |coords2| && 3 * nvals <= |coords3|
    requires forall i :: 0 <= i < nvals ==>
      InsideHalfBox(BondVector(coords1, coords2, i), box) && InsideHalfBox(BondVector(coords3, coords2, i), box)
    ensures Angles(sqrt, atan2, coords1, coords2, coords3, box, nvals) == AnglesNoBox(sqrt, atan2, coords1, coords2, coords3, nvals)
  {
    forall i | 0 <= i < nvals
      ensures Angles(sqrt, atan2, coords1, coords2, coords3, box, nvals)[i] == AnglesNoBox(sqrt, atan2, coords1, coords2, coords3, nvals)[i]
    {
      InsideUnwrapped(BondVector(coords1, coords2, i), box);
      InsideUnwrapped(BondVector(coords3, coords2, i), box);
    }
  }

  /** Every angle VanillaCalcAngles reports lies in [0, pi]. */
  lemma AnglesInRange(sqrt: real -> real, atan2: (real, real) -> real, pi: real, coords1: seq<real>, coords2: seq<real>, coords3: seq<real>, box: seq<real>, nvals: nat)
    requires IsSqrt(sqrt) && Atan2UpperHalfPlane(atan2, pi) && NonzeroBox(box)
    requires 3 * nvals <= |coords1| && 3 * nvals <= |coords2| && 3 * nvals <= |coords3|
    ensures forall i :: 0 <= i < nvals ==> 0.0 <= Angles(sqrt, atan2, coords1, coords2, coords3, box, nvals)[i] <= pi
  {
    forall i | 0 <= i < nvals
      ensures 0.0 <= Angles(sqrt, atan2, coords1, coords2, coords3, box, nvals)[i] <= pi
    {
      AngleInRange(sqrt, atan2, pi, Wrap(BondVector(coords1, coords2, i), box), Wrap(BondVector(coords3, coords2, i), box));
    }
  }

  /** Every angle VanillaCalcAnglesNoBox reports lies in [0, pi]. */
  lemma AnglesNoBoxInRange(sqrt: real -> real, atan2: (real, real) -> real, pi: real, coords1: seq<real>, coords2: seq<real>, coords3: seq<real>, nvals: nat)
    requires IsSqrt(sqrt) && Atan2UpperHalfPlane(atan2, pi)
    requires 3 * nvals <= |coords1| && 3 * nvals <= |coords2| && 3 * nvals <= |coords3|
    ensures forall i :: 0 <= i < nvals ==> 0.0 <= AnglesNoBox(sqrt, atan2, coords1, coords2, coords3, nvals)[i] <= pi
  {
    forall i | 0 <= i < nvals
      ensures 0.0 <= AnglesNoBox(sqrt, atan2, coords1, coords2, coords3, nvals)[i] <= pi
    {
      AngleInRange(sqrt, atan2, pi, BondVector(coords1, coords2, i), BondVector(coords3, coords2, i));
    }
  }

  /** The angle at the middle point does not depend on which outer point is
      listed first: swapping coords1 and coords3 changes nothing. */
  lemma AnglesSwap(sqrt: real -> real, atan2: (real, real) -> real, coords1: seq<real>, coords2: seq<real>, coords3: seq<real>, box: seq<real>, nvals: nat)
    requires NonzeroBox(box)
    requires 3 * nvals <= |coords1| && 3 * nvals <= |coords2| && 3 * nvals <= |coords3|
    ensures Angles(sqrt, atan2, coords1, coords2, coords3, box, nvals) == Angles(sqrt, atan2, coords3, coords2, coords1, box, nvals)
  {
    forall i | 0 <= i < nvals
      ensures Angles(sqrt, atan2, coords1, coords2, coords3, box, nvals)[i] == Angles(sqrt, atan2, coords3, coords2, coords1, box, nvals)[i]
    {
      AngleSymmetric(sqrt, atan2, Wrap(BondVector(coords1, coords2, i), box), Wrap(BondVector(coords3, coords2, i), box));
    }
  }

  /** The same for VanillaCalcAnglesNoBox. */
  lemma AnglesNoBoxSwap(sqrt: real -> real, atan2: (real, real) -> real, coords1: seq<real>, coords2: seq<real>, coords3: seq<real>, nvals: nat)
    requires 3 * nvals <= |coords1| && 3 * nvals <= |coords2| && 3 * nvals <= |coords3|
    ensures AnglesNoBox(sqrt, atan2, coords1, coords2, coords3, nvals) == AnglesNoBox(sqrt, atan2, coords3, coords2, coords1, nvals)
  {
    forall i | 0 <= i < nvals
      ensures AnglesNoBox(sqrt, atan2, coords1, coords2, coords3, nvals)[i] == AnglesNoBox(sqrt, atan2, coords3, coords2, coords1, nvals)[i]
    {
      AngleSymmetric(sqrt, atan2, BondVector(coords1, coords2, i), BondVector(coords3, coords2, i));
    }
  }

  /** When no displacement crosses half the box, VanillaCalcAngles as written
      never changes rji and rjk: they keep their initial contents. */
  lemma {:induction false} AsWrittenStuck(g: Vec3, a: seq<real>, b: seq<real>, box: seq<real>, n: nat)
    requires PositiveBox(box) && 3 * n <= |a| && 3 * n <= |b|
    requires forall i :: 0 <= i < n ==> InsideHalfBox(BondVector(a, b, i), box)
    ensures AsWrittenVector(g, a, b, box, n) == g
  {
    if n > 0 {
      AsWrittenStuck(g, a, b, box, n - 1);
      InsideUnwrapped(BondVector(a, b, n - 1), box);
    }
  }

  /** Hence for such triads every angle VanillaCalcAngles as written reports
      is the angle between the arrays' initial contents, whatever the
      coordinates. */
  lemma AnglesAsWrittenIgnoreCoordinates(sqrt: real -> real, atan2: (real, real) -> real, gji: Vec3, gjk: Vec3, coords1: seq<real>, coords2: seq<real>, coords3: seq<real>, box: seq<real>, nvals: nat)
    requires PositiveBox(box)
    requires 3 * nvals <= |coords1| && 3 * nvals <= |coords2| && 3 * nvals <= |coords3|
    requires forall i :: 0 <= i < nvals ==>
      InsideHalfBox(BondVector(coords1, coords2, i), box) && InsideHalfBox(BondVector(coords3, coords2, i), box)
    ensures forall i :: 0 <= i < nvals ==>
      AnglesAsWritten(sqrt, atan2, gji, gjk, coords1, coords2, coords3, box, nvals)[i] == Angle(sqrt, atan2, gji, gjk)
  {
    forall i | 0 <= i < nvals
      ensures AnglesAsWritten(sqrt, atan2, gji, gjk, coords1, coords2, coords3, box, nvals)[i] == Angle(sqrt, atan2, gji, gjk)
    {
      AsWrittenStuck(gji, coords1, coords2, box, i + 1);
      AsWrittenStuck(gjk, coords3, coords2, box, i + 1);
    }
  }

  /** Had rji started out holding the displacement of the first triad, the
      first pass of VanillaCalcAngles as written would leave it holding that
      displacement wrapped, as intended: the missing store `rji[j] = temp` is
      the whole difference. */
  lemma AsWrittenFirstPass(a: seq<real>, b: seq<real>, box: seq<real>)
    requires NonzeroBox(box) && 3 <= |a| && 3 <= |b|
    ensures AsWrittenVector(BondVector(a, b, 0), a, b, box, 1) == Wrap(BondVector(a, b, 0), box)
  {
    WrapIsCorrected(BondVector(a, b, 0), box);
  }
}
