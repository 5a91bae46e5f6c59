/**
 The C kernels of calc_distances.h: minimum_image and the distance-array,
 self-distance-array and bond-distance kernels, each with and without an
 orthorhombic periodic box. A `coordinate*` buffer is a sequence of Vec3,
 an output `float*` an array; sqrt is a parameter constrained by IsSqrt
 wherever a property needs it.
 */
module CalcDistances {
  import opened Reals
  import opened Libm
  import opened Geometry
  import opened Periodic

  /** How a displacement is turned into the one whose length is reported:
      as it is, or wrapped per axis by minimum_image. */
  datatype Boundary = NoBox | OrthoBox(box: Vec3, inverseBox: Vec3)

  /** inverse_box[i] = 1.0 / box[i]. An edge of 0 gives inf in C, which
      minimum_image never reads because 0 is not above FLT_EPSILON; it is 0 here. */
  function Inverse(b: real): real {
    if b == 0.0 then 0.0 else 1.0 / b
  }

  lemma InverseExact(b: real)
    requires b != 0.0
    ensures Inverse(b) == 1.0 / b
  {
  }

  /** The box three kernels read from `float* box`, and its inverse. */
  function Ortho(box: seq<real>): Boundary
    requires |box| >= 3
  {
    OrthoBox(Vec3(box[0], box[1], box[2]), Vec3(Inverse(box[0]), Inverse(box[1]), Inverse(box[2])))
  }

  /** The displacement after the boundary is applied: minimum_image on each
      axis. A wrapped axis lies within half an edge. */
  function Image(boundary: Boundary, d: Vec3): (w: Vec3)
    ensures boundary.NoBox? ==> w == d
    ensures boundary.OrthoBox? ==> forall axis :: 0 <= axis < 3 ==>
      (Axis(boundary.box, axis) <= FltEpsilon ==> Axis(w, axis) == Axis(d, axis)) &&
      (Axis(boundary.box, axis) > FltEpsilon ==>
        -Axis(boundary.box, axis) / 2.0 <= Axis(w, axis) <= Axis(boundary.box, axis) / 2.0)
  {
    match boundary
    case NoBox => d
    case OrthoBox(box, inv) =>
      Vec3(MinImageAxis(d.x, box.x, inv.x), MinImageAxis(d.y, box.y, inv.y), MinImageAxis(d.z, box.z, inv.z))
  }

  /** The squared length the kernels pass to sqrt for the displacement from
      `from` to `to`. */
  function DistanceSq(boundary: Boundary, from: Vec3, to: Vec3): real {
    NormSq(Image(boundary, Sub(to, from)))
  }

  function Distance(sqrt: real -> real, boundary: Boundary, from: Vec3, to: Vec3): real {
    sqrt(DistanceSq(boundary, from, to))
  }

  // ---------------------------------------------------------------- minimum_image

  /** Each step of the axis loop: box * (s - round(s)) with s = inverseBox * x
      is the wrapped axis. */
  lemma MinImageStep(x: real, box: real, inverseBox: real, s: real, r: real)
    requires box > FltEpsilon && s == inverseBox * x
    requires r == box * (s - Round(s) as real)
    ensures r == MinImageAxis(x, box, inverseBox)
  {
    MinImageAxisUnfold(x, box, inverseBox);
    FracCongruence(inverseBox * x, s);
  }

  /** minimum_image(x, box, inverse_box): wraps x[0..3) in place, axis by axis;
      an axis whose edge is not above FLT_EPSILON keeps its value. */
  method MinimumImage(x: array<real>, box: seq<real>, inverseBox: seq<real>)
    requires x.Length >= 3 && |box| >= 3 && |inverseBox| >= 3
    modifies x
    ensures forall k :: 0 <= k < 3 ==> x[k] == MinImageAxis(old(x[k]), box[k], inverseBox[k])
    ensures forall k :: 3 <= k < x.Length ==> x[k] == old(x[k])
  {
    for i := 0 to 3
      invariant forall k :: 0 <= k < i ==> x[k] == MinImageAxis(old(x[k]), box[k], inverseBox[k])
      invariant forall k :: i <= k < x.Length ==> x[k] == old(x[k])
    {
      if box[i] > FltEpsilon {
        ghost var before := x[i];
        var s := inverseBox[i] * x[i];
        x[i] := box[i] * (s - Round(s) as real);
        MinImageStep(before, box[i], inverseBox[i], s, x[i]);
      }
    }
  }

  /** minimum_image applied to the three entries of a displacement array. */
  lemma MinimumImageIsImage(before: Vec3, x: real, y: real, z: real, boundary: Boundary)
    requires boundary.OrthoBox?
    requires x == MinImageAxis(before.x, boundary.box.x, boundary.inverseBox.x)
    requires y == MinImageAxis(before.y, boundary.box.y, boundary.inverseBox.y)
    requires z == MinImageAxis(before.z, boundary.box.z, boundary.inverseBox.z)
    ensures Vec3(x, y, z) == Image(boundary, before)
  {
  }

  /** The inverse box as the kernels compute it. */
  method InverseBox(box: seq<real>) returns (inverseBox: seq<real>)
    requires |box| >= 3
    ensures |inverseBox| == 3
    ensures Vec3(inverseBox[0], inverseBox[1], inverseBox[2]) == Ortho(box).inverseBox
    ensures forall k :: 0 <= k < 3 && box[k] != 0.0 ==> inverseBox[k] == 1.0 / box[k]
  {
    inverseBox := [Inverse(box[0]), Inverse(box[1]), Inverse(box[2])];
  }

  // ---------------------------------------------------------------- layout

  /** Row-major index arithmetic for cell (i, j) of a rows x cols matrix. */
  lemma RowMajor(i: nat, j: nat, rows: nat, cols: nat)
    requires i < rows && j < cols
    ensures (i + 1) * cols == i * cols + cols
    ensures i * cols + j < (i + 1) * cols <= rows * cols
  {
    assert (i + 1) * cols == i * cols + cols;
    MulMonotone(i + 1, rows, cols);
  }

  lemma MulSucc(i: nat, cols: nat)
    ensures (i + 1) * cols == i * cols + cols
  {
  }

  lemma MulMonotone(a: nat, b: nat, c: nat)
    requires a <= b
    ensures a * c <= b * c
  {
    assert b * c - a * c == (b - a) * c;
  }

  // ---------------------------------------------------------------- distance arrays

  /** Row i of the distance array: from ref point r to every conf point. */
  function DistanceRow(sqrt: real -> real, boundary: Boundary, r: Vec3, conf: seq<Vec3>): (row: seq<real>)
    ensures |row| == |conf|
  {
    seq(|conf|, j requires 0 <= j < |conf| => Distance(sqrt, boundary, r, conf[j]))
  }

  /** The full |ref| x |conf| distance array, row by row. */
  function DistanceArray(sqrt: real -> real, boundary: Boundary, ref: seq<Vec3>, conf: seq<Vec3>): (d: seq<real>)
    ensures |d| == |ref| * |conf|
    decreases |ref|
  {
    if |ref| == 0 then []
    else
      var d := DistanceArray(sqrt, boundary, ref[..|ref| - 1], conf) + DistanceRow(sqrt, boundary, ref[|ref| - 1], conf);
      MulSucc(|ref| - 1, |conf|);
      d
  }

  /** Cell i * |conf| + j holds the distance from ref[i] to conf[j] and
      nothing else: every cell of the array is written from exactly one pair. */
  lemma {:induction false} DistanceArrayCell(sqrt: real -> real, boundary: Boundary, ref: seq<Vec3>, conf: seq<Vec3>, i: nat, j: nat)
    requires i < |ref| && j < |conf|
    ensures i * |conf| + j < |ref| * |conf|
    ensures DistanceArray(sqrt, boundary, ref, conf)[i * |conf| + j] == Distance(sqrt, boundary, ref[i], conf[j])
    decreases |ref|
  {
    RowMajor(i, j, |ref|, |conf|);
    var last := |ref| - 1;
    var prefix := ref[..last];
    assert |DistanceArray(sqrt, boundary, prefix, conf)| == last * |conf|;
    if i < last {
      DistanceArrayCell(sqrt, boundary, prefix, conf, i, j);
      assert prefix[i] == ref[i];
    } else {
      assert i * |conf| + j - last * |conf| == j;
    }
  }

  /** _calc_distance_array: distances[i * numconf + j] = |conf[j] - ref[i]|. */
  method CalcDistanceArray(sqrt: real -> real, ref: seq<Vec3>, conf: seq<Vec3>, distances: array<real>)
    requires distances.Length >= |ref| * |conf|
    modifies distances
    ensures distances[..|ref| * |conf|] == DistanceArray(sqrt, NoBox, ref, conf)
    ensures distances[|ref| * |conf|..] == old(distances[|ref| * |conf|..])
  {
    var numconf := |conf|;
    var total := |ref| * numconf;
    var dx := new real[3];
    ghost var full := DistanceArray(sqrt, NoBox, ref, conf);
    for i := 0 to |ref|
      invariant i * numconf <= total
      invariant forall k :: 0 <= k < i * numconf ==> distances[k] == full[k]
      invariant distances[total..] == old(distances[total..])
    {
      var base := i * numconf;
      MulSucc(i, numconf);
      MulMonotone(i + 1, |ref|, numconf);
      for j := 0 to numconf
        invariant forall k :: 0 <= k < base + j ==> distances[k] == full[k]
        invariant distances[total..] == old(distances[total..])
      {
        dx[0] := conf[j].x - ref[i].x;
        dx[1] := conf[j].y - ref[i].y;
        dx[2] := conf[j].z - ref[i].z;
        var rsq := SquaredLength(dx);
        assert Vec3(dx[0], dx[1], dx[2]) == Image(NoBox, Sub(conf[j], ref[i]));
        Congruence(sqrt, rsq, DistanceSq(NoBox, ref[i], conf[j]));
        DistanceArrayCell(sqrt, NoBox, ref, conf, i, j);
        distances[base + j] := sqrt(rsq);
      }
    }
    assert distances[..total] == full;
  }

  /** The body of the ortho kernels' loops: dx = to - from, minimum_image(dx),
      rsq = dx[0]*dx[0] + dx[1]*dx[1] + dx[2]*dx[2]. */
  method WrappedDistanceSq(dx: array<real>, from: Vec3, to: Vec3, box: seq<real>, inverseBox: seq<real>,
                           ghost boundary: Boundary)
    returns (rsq: real)
    requires dx.Length == 3 && |box| >= 3 && |inverseBox| == 3
    requires boundary.OrthoBox?
    requires boundary.box == Vec3(box[0], box[1], box[2])
    requires boundary.inverseBox == Vec3(inverseBox[0], inverseBox[1], inverseBox[2])
    modifies dx
    ensures Vec3(dx[0], dx[1], dx[2]) == Image(boundary, Sub(to, from))
    ensures rsq == DistanceSq(boundary, from, to)
  {
    dx[0] := to.x - from.x;
    dx[1] := to.y - from.y;
    dx[2] := to.z - from.z;
    ghost var before := Sub(to, from);
    assert forall k :: 0 <= k < 3 ==> dx[k] == Axis(before, k);
    MinimumImage(dx, box, inverseBox);
    MinimumImageIsImage(before, dx[0], dx[1], dx[2], boundary);
    rsq := SquaredLength(dx);
  }

  /** rsq = (dx[0]*dx[0]) + (dx[1]*dx[1]) + (dx[2]*dx[2]). */
  method SquaredLength(dx: array<real>) returns (rsq: real)
    requires dx.Length == 3
    ensures rsq == NormSq(Vec3(dx[0], dx[1], dx[2]))
  {
    rsq := dx[0] * dx[0] + dx[1] * dx[1] + dx[2] * dx[2];
  }

  /** _calc_distance_array_ortho: as _calc_distance_array, with each
      displacement passed through minimum_image first. */
  method CalcDistanceArrayOrtho(sqrt: real -> real, ref: seq<Vec3>, conf: seq<Vec3>, box: seq<real>, distances: array<real>)
    requires |box| >= 3
    requires distances.Length >= |ref| * |conf|
    modifies distances
    ensures distances[..|ref| * |conf|] == DistanceArray(sqrt, Ortho(box), ref, conf)
    ensures distances[|ref| * |conf|..] == old(distances[|ref| * |conf|..])
  {
    var numconf := |conf|;
    var total := |ref| * numconf;
    var dx := new real[3];
    var inverseBox := InverseBox(box);
    ghost var boundary := Ortho(box);
    ghost var full := DistanceArray(sqrt, boundary, ref, conf);
    for i := 0 to |ref|
      invariant i * numconf <= total
      invariant forall k :: 0 <= k < i * numconf ==> distances[k] == full[k]
      invariant distances[total..] == old(distances[total..])
    {
      var base := i * numconf;
      MulSucc(i, numconf);
      MulMonotone(i + 1, |ref|, numconf);
      for j := 0 to numconf
        invariant forall k :: 0 <= k < base + j ==> distances[k] == full[k]
        invariant distances[total..] == old(distances[total..])
      {
        var rsq := WrappedDistanceSq(dx, ref[i], conf[j], box, inverseBox, boundary);
        Congruence(sqrt, rsq, DistanceSq(boundary, ref[i], conf[j]));
        DistanceArrayCell(sqrt, boundary, ref, conf, i, j);
        distances[base + j] := sqrt(rsq);
      }
    }
    assert distances[..total] == full;
  }

  // ---------------------------------------------------------------- self-distance arrays

  /** Where row i of the packed upper triangle of an n x n matrix starts
      when rows 0 .. i-1 are written one after another: the sum of their
      lengths n - 1, n - 2, ..., n - i. It is the value of distpos at the
      start of row i in the sequential build. */
  function RowOffset(i: nat, n: int): int {
    if i == 0 then 0 else RowOffset(i - 1, n) + (n - i)
  }

  /** The offset the parallel build assigns to distpos at the start of row i. */
  function ParallelOffset(i: int, n: int): int {
    i * (2 * n - i - 1) / 2
  }

  lemma RowOffsetProductStep(i: int, n: int)
    ensures (i + 1) * (2 * n - (i + 1) - 1) == i * (2 * n - i - 1) + 2 * (n - i - 1)
  {
  }

  /** The parallel closed form is the sequential offset: i * (2n - i - 1) is
      twice the offset, hence never odd, and the division by 2 is exact. */
  lemma {:induction false} RowOffsetClosedForm(i: nat, n: int)
    ensures 2 * RowOffset(i, n) == i * (2 * n - i - 1)
    ensures ParallelOffset(i, n) == RowOffset(i, n)
    decreases i
  {
    if i > 0 {
      RowOffsetClosedForm(i - 1, n);
      RowOffsetProductStep(i - 1, n);
    }
  }

  /** Rows start in increasing order. */
  lemma {:induction false} RowOffsetMonotone(i: nat, k: nat, n: nat)
    requires i <= k <= n
    ensures RowOffset(i, n) <= RowOffset(k, n)
    decreases k - i
  {
    if i < k {
      RowOffsetMonotone(i + 1, k, n);
    }
  }

  lemma PackedProduct(n: int)
    ensures n * (2 * n - n - 1) == n * (n - 1)
  {
  }

  /** The n rows hold n * (n - 1) / 2 cells, one per unordered pair. */
  lemma PackedCount(n: nat)
    ensures RowOffset(n, n) == n * (n - 1) / 2
  {
    RowOffsetClosedForm(n, n);
    PackedProduct(n);
  }

  /** The slot the kernels give the pair i < j: row i's offset plus j - i - 1. */
  function Slot(i: nat, j: nat, n: nat): int {
    RowOffset(i, n) + (j - i - 1)
  }

  /** Slots follow the row-major order of the pairs i < j < n: a pair earlier
      in that order gets a smaller slot, so no slot is written twice. */
  lemma SelfSlotOrder(i: nat, j: nat, i': nat, j': nat, n: nat)
    requires i < j < n && i' < j' < n
    requires i < i' || (i == i' && j < j')
    ensures 0 <= Slot(i, j, n) < Slot(i', j', n) < n * (n - 1) / 2
  {
    RowOffsetMonotone(0, i, n);
    if i < i' {
      RowOffsetMonotone(i + 1, i', n);
    }
    RowOffsetMonotone(i' + 1, n, n);
    PackedCount(n);
  }

  /** Row i of the packed array: the distances from ref[i] to ref[j], i < j. */
  function SelfRow(sqrt: real -> real, boundary: Boundary, ref: seq<Vec3>, i: nat): (row: seq<real>)
    requires i < |ref|
    ensures |row| == |ref| - i - 1
  {
    seq(|ref| - i - 1, t requires 0 <= t < |ref| - i - 1 => Distance(sqrt, boundary, ref[i], ref[i + 1 + t]))
  }

  /** The first `rows` rows of the packed self-distance array. */
  function SelfDistanceArray(sqrt: real -> real, boundary: Boundary, ref: seq<Vec3>, rows: nat): (d: seq<real>)
    requires rows <= |ref|
    ensures |d| == RowOffset(rows, |ref|)
    decreases rows
  {
    if rows == 0 then []
    else
      SelfDistanceArray(sqrt, boundary, ref, rows - 1) + SelfRow(sqrt, boundary, ref, rows - 1)
  }

  /** Slot(i, j) of the packed array holds the distance from ref[i] to ref[j]. */
  lemma {:induction false} SelfDistanceCell(sqrt: real -> real, boundary: Boundary, ref: seq<Vec3>, rows: nat, i: nat, j: nat)
    requires rows <= |ref| && i < rows && i < j < |ref|
    ensures 0 <= Slot(i, j, |ref|) < RowOffset(rows, |ref|)
    ensures SelfDistanceArray(sqrt, boundary, ref, rows)[Slot(i, j, |ref|)] == Distance(sqrt, boundary, ref[i], ref[j])
    decreases rows
  {
    var n := |ref|;
    RowOffsetMonotone(0, i, n);
    RowOffsetMonotone(i + 1, rows, n);
    if i < rows - 1 {
      SelfDistanceCell(sqrt, boundary, ref, rows - 1, i, j);
    }
  }

  /** _calc_self_distance_array: the distances of all pairs i < j, packed
      row by row through the running counter distpos. At the start of row i
      distpos equals the closed form the parallel build assigns instead. */
  method CalcSelfDistanceArray(sqrt: real -> real, ref: seq<Vec3>, distances: array<real>)
    requires distances.Length >= |ref| * (|ref| - 1) / 2
    modifies distances
    ensures distances[..|ref| * (|ref| - 1) / 2] == SelfDistanceArray(sqrt, NoBox, ref, |ref|)
    ensures distances[|ref| * (|ref| - 1) / 2..] == old(distances[|ref| * (|ref| - 1) / 2..])
  {
    var numref := |ref|;
    var total := numref * (numref - 1) / 2;
    PackedCount(numref);
    var dx := new real[3];
    ghost var full := SelfDistanceArray(sqrt, NoBox, ref, numref);
    var distpos := 0;
    for i := 0 to numref
      invariant distpos == RowOffset(i, numref) <= total
      invariant forall k :: 0 <= k < distpos ==> distances[k] == full[k]
      invariant distances[total..] == old(distances[total..])
    {
      RowOffsetClosedForm(i, numref);
      assert distpos == ParallelOffset(i, numref);
      RowOffsetMonotone(i + 1, numref, numref);
      for j := i + 1 to numref
        invariant distpos == Slot(i, j, numref)
        invariant forall k :: 0 <= k < distpos ==> distances[k] == full[k]
        invariant distances[total..] == old(distances[total..])
      {
        dx[0] := ref[j].x - ref[i].x;
        dx[1] := ref[j].y - ref[i].y;
        dx[2] := ref[j].z - ref[i].z;
        var rsq := SquaredLength(dx);
        assert Vec3(dx[0], dx[1], dx[2]) == Image(NoBox, Sub(ref[j], ref[i]));
        Congruence(sqrt, rsq, DistanceSq(NoBox, ref[i], ref[j]));
        SelfDistanceCell(sqrt, NoBox, ref, numref, i, j);
        distances[distpos] := sqrt(rsq);
        distpos := distpos + 1;
      }
    }
    assert distances[..total] == full;
  }

  /** _calc_self_distance_array_ortho: as _calc_self_distance_array, with each
      displacement passed through minimum_image first. */
  method CalcSelfDistanceArrayOrtho(sqrt: real -> real, ref: seq<Vec3>, box: seq<real>, distances: array<real>)
    requires |box| >= 3
    requires distances.Length >= |ref| * (|ref| - 1) / 2
    modifies distances
    ensures distances[..|ref| * (|ref| - 1) / 2] == SelfDistanceArray(sqrt, Ortho(box), ref, |ref|)
    ensures distances[|ref| * (|ref| - 1) / 2..] == old(distances[|ref| * (|ref| - 1) / 2..])
  {
    var numref := |ref|;
    var total := numref * (numref - 1) / 2;
    PackedCount(numref);
    var dx := new real[3];
    var inverseBox := InverseBox(box);
    ghost var boundary := Ortho(box);
    ghost var full := SelfDistanceArray(sqrt, boundary, ref, numref);
    var distpos := 0;
    for i := 0 to numref
      invariant distpos == RowOffset(i, numref) <= total
      invariant forall k :: 0 <= k < distpos ==> distances[k] == full[k]
      invariant distances[total..] == old(distances[total..])
    {
      RowOffsetClosedForm(i, numref);
      assert distpos == ParallelOffset(i, numref);
      RowOffsetMonotone(i + 1, numref, numref);
      for j := i + 1 to numref
        invariant distpos == Slot(i, j, numref)
        invariant forall k :: 0 <= k < distpos ==> distances[k] == full[k]
        invariant distances[total..] == old(distances[total..])
      {
        var rsq := WrappedDistanceSq(dx, ref[i], ref[j], box, inverseBox, boundary);
        Congruence(sqrt, rsq, DistanceSq(boundary, ref[i], ref[j]));
        SelfDistanceCell(sqrt, boundary, ref, numref, i, j);
        distances[distpos] := sqrt(rsq);
        distpos := distpos + 1;
      }
    }
    assert distances[..total] == full;
  }

  // ---------------------------------------------------------------- bond distances

  /** distances[i] = |atom1[i] - atom2[i]| for the first numatom pairs. */
  function BondDistances(sqrt: real -> real, boundary: Boundary, atom1: seq<Vec3>, atom2: seq<Vec3>, numatom: nat): (d: seq<real>)
    requires numatom <= |atom1| && numatom <= |atom2|
    ensures |d| == numatom
  {
    seq(numatom, i requires 0 <= i < numatom => Distance(sqrt, boundary, atom2[i], atom1[i]))
  }

  /** _calc_bond_distance: pair i alone decides distances[i]. */
  method CalcBondDistance(sqrt: real -> real, atom1: seq<Vec3>, atom2: seq<Vec3>, numatom: nat, distances: array<real>)
    requires numatom <= |atom1| && numatom <= |atom2| && numatom <= distances.Length
    modifies distances
    ensures distances[..numatom] == BondDistances(sqrt, NoBox, atom1, atom2, numatom)
    ensures distances[numatom..] == old(distances[numatom..])
  {
    var dx := new real[3];
    for i := 0 to numatom
      invariant distances[..i] == BondDistances(sqrt, NoBox, atom1, atom2, numatom)[..i]
      invariant distances[numatom..] == old(distances[numatom..])
    {
      dx[0] := atom1[i].x - atom2[i].x;
      dx[1] := atom1[i].y - atom2[i].y;
      dx[2] := atom1[i].z - atom2[i].z;
      var rsq := SquaredLength(dx);
      assert Vec3(dx[0], dx[1], dx[2]) == Image(NoBox, Sub(atom1[i], atom2[i]));
      Congruence(sqrt, rsq, DistanceSq(NoBox, atom2[i], atom1[i]));
      distances[i] := sqrt(rsq);
    }
  }

  /** _calc_bond_distance_ortho: as _calc_bond_distance, with each
      displacement passed through minimum_image first. */
  method CalcBondDistanceOrtho(sqrt: real -> real, atom1: seq<Vec3>, atom2: seq<Vec3>, numatom: nat, box: seq<real>, distances: array<real>)
    requires |box| >= 3
    requires numatom <= |atom1| && numatom <= |atom2| && numatom <= distances.Length
    modifies distances
    ensures distances[..numatom] == BondDistances(sqrt, Ortho(box), atom1, atom2, numatom)
    ensures distances[numatom..] == old(distances[numatom..])
  {
    var dx := new real[3];
    var inverseBox := InverseBox(box);
    ghost var boundary := Ortho(box);
    for i := 0 to numatom
      invariant distances[..i] == BondDistances(sqrt, boundary, atom1, atom2, numatom)[..i]
      invariant distances[numatom..] == old(distances[numatom..])
    {
      var rsq := WrappedDistanceSq(dx, atom2[i], atom1[i], box, inverseBox, boundary);
      Congruence(sqrt, rsq, DistanceSq(boundary, atom2[i], atom1[i]));
      distances[i] := sqrt(rsq);
    }
  }

  // ---------------------------------------------------------------- properties

  /** Reversing a displacement reverses its image: minimum_image is odd. */
  lemma ImageOdd(boundary: Boundary, d: Vec3)
    ensures Image(boundary, Neg(d)) == Neg(Image(boundary, d))
  {
    if boundary.OrthoBox? {
      MinImageOdd(d.x, boundary.box.x, boundary.inverseBox.x);
      MinImageOdd(d.y, boundary.box.y, boundary.inverseBox.y);
      MinImageOdd(d.z, boundary.box.z, boundary.inverseBox.z);
    }
  }

  /** The distance from p to q is the distance from q to p, with or without a box. */
  lemma DistanceSymmetric(sqrt: real -> real, boundary: Boundary, p: Vec3, q: Vec3)
    ensures DistanceSq(boundary, p, q) == DistanceSq(boundary, q, p)
    ensures Distance(sqrt, boundary, p, q) == Distance(sqrt, boundary, q, p)
  {
    SubAntisymmetric(q, p);
    ImageOdd(boundary, Sub(p, q));
    NormSqNeg(Image(boundary, Sub(p, q)));
  }

  /** Swapping atom1 and atom2 leaves the bond distances unchanged. */
  lemma BondDistancesSwap(sqrt: real -> real, boundary: Boundary, atom1: seq<Vec3>, atom2: seq<Vec3>, numatom: nat)
    requires numatom <= |atom1| && numatom <= |atom2|
    ensures BondDistances(sqrt, boundary, atom1, atom2, numatom) == BondDistances(sqrt, boundary, atom2, atom1, numatom)
  {
    forall i | 0 <= i < numatom {
      DistanceSymmetric(sqrt, boundary, atom2[i], atom1[i]);
    }
  }

  /** A box none of whose edges exceeds FLT_EPSILON wraps nothing: the ortho
      kernels then agree with the plain ones. */
  lemma FlatBoxIsNoBox(box: seq<real>, d: Vec3)
    requires |box| >= 3 && box[0] <= FltEpsilon && box[1] <= FltEpsilon && box[2] <= FltEpsilon
    ensures Image(Ortho(box), d) == Image(NoBox, d)
  {
    assert Axis(Ortho(box).box, 0) <= FltEpsilon;
    assert Axis(Ortho(box).box, 1) <= FltEpsilon;
    assert Axis(Ortho(box).box, 2) <= FltEpsilon;
  }

  lemma FlatBoxBonds(sqrt: real -> real, box: seq<real>, atom1: seq<Vec3>, atom2: seq<Vec3>, numatom: nat)
    requires |box| >= 3 && box[0] <= FltEpsilon && box[1] <= FltEpsilon && box[2] <= FltEpsilon
    requires numatom <= |atom1| && numatom <= |atom2|
    ensures BondDistances(sqrt, Ortho(box), atom1, atom2, numatom) == BondDistances(sqrt, NoBox, atom1, atom2, numatom)
  {
    forall i | 0 <= i < numatom {
      FlatBoxIsNoBox(box, Sub(atom1[i], atom2[i]));
    }
  }

  /** Half of each edge of a box. */
  function HalfBox(box: Vec3): Vec3 {
    Vec3(box.x / 2.0, box.y / 2.0, box.z / 2.0)
  }

  /** Inside a box whose edges all exceed FLT_EPSILON no reported squared
      distance exceeds a quarter of the box diagonal squared. */
  lemma WrappedDistanceBound(box: Vec3, inverseBox: Vec3, p: Vec3, q: Vec3)
    requires box.x > FltEpsilon && box.y > FltEpsilon && box.z > FltEpsilon
    ensures DistanceSq(OrthoBox(box, inverseBox), p, q) <= NormSq(HalfBox(box))
  {
    var w := Image(OrthoBox(box, inverseBox), Sub(q, p));
    assert Axis(w, 0) == w.x && Axis(w, 1) == w.y && Axis(w, 2) == w.z;
    assert Axis(box, 0) == box.x && Axis(box, 1) == box.y && Axis(box, 2) == box.z;
    NormSqLe(w, HalfBox(box));
  }

  /** The displacement d moved by whole edges: n.0 boxes along x, and so on. */
  function Translate(d: Vec3, box: Vec3, nx: int, ny: int, nz: int): Vec3 {
    Vec3(d.x - nx as real * box.x, d.y - ny as real * box.y, d.z - nz as real * box.z)
  }

  /** With each edge's exact inverse, the image of d is its translate by
      round(d / edge) whole edges on each axis. */
  lemma ImageIsTranslate(box: Vec3, inverseBox: Vec3, d: Vec3)
    requires box.x > FltEpsilon && box.y > FltEpsilon && box.z > FltEpsilon
    requires inverseBox == Vec3(1.0 / box.x, 1.0 / box.y, 1.0 / box.z)
    ensures Image(OrthoBox(box, inverseBox), d)
      == Translate(d, box, Round(d.x / box.x), Round(d.y / box.y), Round(d.z / box.z))
  {
    var t := Translate(d, box, Round(d.x / box.x), Round(d.y / box.y), Round(d.z / box.z));
    MinImageAxisIsTranslate(d.x, box.x, inverseBox.x, t.x);
    MinImageAxisIsTranslate(d.y, box.y, inverseBox.y, t.y);
    MinImageAxisIsTranslate(d.z, box.z, inverseBox.z, t.z);
  }

  /** With each edge's exact inverse, minimum_image yields the minimum image:
      no whole-edge translate of the displacement is shorter than its image
      (ImageIsTranslate says which translate the image is). */
  lemma ImageIsMinimal(box: Vec3, inverseBox: Vec3, d: Vec3, nx: int, ny: int, nz: int)
    requires box.x > FltEpsilon && box.y > FltEpsilon && box.z > FltEpsilon
    requires inverseBox == Vec3(1.0 / box.x, 1.0 / box.y, 1.0 / box.z)
    ensures NormSq(Image(OrthoBox(box, inverseBox), d)) <= NormSq(Translate(d, box, nx, ny, nz))
  {
    var t := Translate(d, box, nx, ny, nz);
    MinImageAxisIsMinimal(d.x, box.x, inverseBox.x, nx, t.x);
    MinImageAxisIsMinimal(d.y, box.y, inverseBox.y, ny, t.y);
    MinImageAxisIsMinimal(d.z, box.z, inverseBox.z, nz, t.z);
    NormSqLe(Image(OrthoBox(box, inverseBox), d), t);
  }

  /** The ortho kernels report minimum-image distances when every edge
      exceeds FLT_EPSILON: the wrapped displacement is a whole-edge translate
      of q - p, and no translate is shorter. */
  lemma DistanceIsMinimumImage(box: seq<real>, p: Vec3, q: Vec3, nx: int, ny: int, nz: int)
    requires |box| >= 3 && box[0] > FltEpsilon && box[1] > FltEpsilon && box[2] > FltEpsilon
    ensures Image(Ortho(box), Sub(q, p)) == Translate(Sub(q, p), Ortho(box).box,
      Round(Sub(q, p).x / box[0]), Round(Sub(q, p).y / box[1]), Round(Sub(q, p).z / box[2]))
    ensures DistanceSq(Ortho(box), p, q) <= NormSq(Translate(Sub(q, p), Ortho(box).box, nx, ny, nz))
  {
    InverseExact(box[0]);
    InverseExact(box[1]);
    InverseExact(box[2]);
    ImageIsMinimal(Ortho(box).box, Ortho(box).inverseBox, Sub(q, p), nx, ny, nz);
    ImageIsTranslate(Ortho(box).box, Ortho(box).inverseBox, Sub(q, p));
  }

  /** The self-distance array is the strict upper triangle of the distance
      array of ref against itself. */
  lemma SelfIsUpperTriangle(sqrt: real -> real, boundary: Boundary, ref: seq<Vec3>, i: nat, j: nat)
    requires i < j < |ref|
    ensures 0 <= Slot(i, j, |ref|) < |SelfDistanceArray(sqrt, boundary, ref, |ref|)|
    ensures i * |ref| + j < |DistanceArray(sqrt, boundary, ref, ref)|
    ensures SelfDistanceArray(sqrt, boundary, ref, |ref|)[Slot(i, j, |ref|)]
      == DistanceArray(sqrt, boundary, ref, ref)[i * |ref| + j]
  {
    SelfDistanceCell(sqrt, boundary, ref, |ref|, i, j);
    DistanceArrayCell(sqrt, boundary, ref, ref, i, j);
  }
}
