# distopia distance kernels, modelled in Dafny

distopia computes distances and angles between atoms, optionally in an
orthorhombic periodic box. This project models two parts of it.

- The scalar C kernels in `calc_distances.h`:
  - `minimum_image`;
  - the distance array and its ortho variant;
  - the self-distance array and its ortho variant, including the packed
    `distpos` layout;
  - bond distances and their ortho variant.
- The reference kernels in `src/compare/vanilla.h`:
  - bonds with a box, bonds without a box, and bonds through an index list;
  - angles with a box, and angles without a box.

The model works over exact reals (`real`). The C library's `sqrt` and
`atan2` are parameters of every kernel. What the proofs assume about them is
stated by predicates in module `Libm`:

- `IsSqrt`: sqrt gives the nonnegative square root.
- `Atan2AxisCases`: atan2's values on the coordinate axes.
- `Atan2UpperHalfPlane`: atan2 maps the upper half plane into [0, pi].

`round` is modelled exactly: nearest integer, halfway cases away from zero.
`FLT_EPSILON` is 2^-23.

Modules, one concept each:

- `Reals` and `Libm`: real-number helpers and the math-library assumptions.
- `Geometry`: the 3-vector algebra both files do by hand (difference, dot
  product, cross product, squared norm) and the angle `atan2(|u x v|, u . v)`.
- `Periodic`: the two one-axis wrap formulas.
  - `minimum_image` multiplies by a stored reciprocal. It leaves an axis
    alone when the box edge is at most `FLT_EPSILON`.
  - The vanilla kernels divide by the box edge.
  - The module proves the two formulas agree, and that both give the
    shortest periodic image.
- `CalcDistances`: the kernels of `calc_distances.h`.
  - Each kernel is a method over an output `array<real>`.
  - Its postcondition ties the written prefix to a specification function
    and says that the rest of the buffer is unchanged.
  - The self-distance kernel keeps the sequential `distpos` counter. The
    closed-form offset of the OpenMP build is proved equal to it.
- `Vanilla`: the kernels of `vanilla.h`, in the same style.
  - `unsigned int` narrowing of the `size_t` indices is explicit.
  - The angle kernel with a box is modelled twice: once as intended, and
    once as written (see Findings).
- `AxisPairs` and `KnownValues`: the known-value fixtures of the test suite,
  restated about the model's kernels.

The code is followed wherever it is more precise than its documentation.
The wrapped component can reach both +L/2 and -L/2. Halfway quotients round
away from zero, so their direction depends on the sign of the displacement.

## Model

| member | source | states |
|---|---|---|
| Periodic.Round | src/compare/vanilla.h:18 | The rounded value is within 1/2 of s. At an exact half it lies on the side away from zero. |
| Periodic.RoundOdd | src/compare/vanilla.h:18 | round(-s) == -round(s). |
| Periodic.RoundShift | src/compare/vanilla.h:18 | Off the halfway points, round(s + k) == round(s) + k for every integer k. |
| Periodic.MinImageAxis | calc_distances.h:38-43 | A box edge at most FLT_EPSILON leaves the component unchanged. Otherwise the result lies in [-box/2, box/2]. |
| Periodic.VanillaWrap | src/compare/vanilla.h:17-19 | For a positive box the result lies in [-L/2, L/2]. A nonnegative displacement stays below L/2, and a negative one above -L/2. |
| Periodic.MinImageIsVanillaWrap | calc_distances.h:40-41 | With inverse_box = 1/box, the multiply-by-reciprocal form equals the divide form r - round(r/L)*L. |
| Periodic.VanillaWrapOdd | src/compare/vanilla.h:17-19 | Wrapping -r gives minus the wrap of r. |
| Periodic.MinImageOdd | calc_distances.h:38-43 | minimum_image of -x is minus minimum_image of x, for every box. |
| Periodic.VanillaWrapShift | src/compare/vanilla.h:17-19 | Moving r by k whole boxes leaves its wrap unchanged, unless r/L is a half-integer. |
| Periodic.VanillaWrapShiftFailsAtTie | src/compare/vanilla.h:18-19 | At a halfway quotient the wrap is not periodic: wrap(-4, 8) == 4 but wrap(-4 + 8, 8) == -4. |
| Periodic.VanillaWrapIsMinimal | src/compare/vanilla.h:17-19 | No translate r - n*L is shorter than the wrap. |
| Periodic.MinImageAxisIsTranslate | calc_distances.h:38-43 | With the exact reciprocal, minimum_image moves the component by round(x/box) whole edges. |
| Periodic.MinImageAxisIsMinimal | calc_distances.h:38-43 | minimum_image gives the translate x - round(x/box)*box of the component, and no whole-box translate is shorter. |
| Periodic.VanillaWrapInside | src/compare/vanilla.h:17-19 | A displacement strictly inside half the box rounds to 0 and is left unchanged. |
| CalcDistances.Image | calc_distances.h:34-44 | Without a box the displacement is unchanged. In a box each axis is minimum_image of that axis. |
| CalcDistances.MinimumImage | calc_distances.h:34-44 | In place on the buffer x: axis k becomes MinImageAxis(old x[k], box[k], inverse_box[k]) for k < 3, and nothing else changes. |
| CalcDistances.MinimumImageIsImage | calc_distances.h:38-43 | The three per-axis results together form the boundary's image of the displacement. |
| CalcDistances.InverseBox | calc_distances.h:75-77 | inverse_box[k] == 1/box[k] for every nonzero edge, and three entries are produced. |
| CalcDistances.DistanceArrayCell | calc_distances.h:62 | Cell i*numconf + j lies in the buffer and holds the distance from ref[i] to conf[j]. |
| CalcDistances.CalcDistanceArray | calc_distances.h:46-65 | The first numref*numconf cells are the row-major distance array. The rest of the buffer is unchanged. |
| CalcDistances.SquaredLength | calc_distances.h:61 | The step from the three cells of dx to a vector: rsq is the squared norm of that vector. Its properties are those of NormSq. |
| CalcDistances.WrappedDistanceSq | calc_distances.h:83-88 | rsq is the squared length of the minimum image of conf[j] - ref[i]. |
| CalcDistances.CalcDistanceArrayOrtho | calc_distances.h:67-92 | The same as CalcDistanceArray, with every displacement passed through minimum_image. |
| CalcDistances.RowOffsetClosedForm | calc_distances.h:109 | At the start of row i the sequential counter satisfies 2*distpos == i*(2n-i-1). So the integer division in the OpenMP offset is exact and equals the counter. |
| CalcDistances.RowOffsetMonotone | calc_distances.h:107-119 | Row offsets do not decrease. |
| CalcDistances.PackedCount | calc_distances.h:95-120 | The self-distance array has n(n-1)/2 cells. |
| CalcDistances.SelfSlotOrder | calc_distances.h:111-117 | Pairs i < j get distinct slots, increasing in row-major order, all below n(n-1)/2. |
| CalcDistances.SelfDistanceCell | calc_distances.h:116-117 | The slot of pair (i, j) lies in the array and holds the distance from ref[i] to ref[j]. |
| CalcDistances.CalcSelfDistanceArray | calc_distances.h:95-120 | The first n(n-1)/2 cells are the packed upper triangle, written through distpos. The rest of the buffer is unchanged. |
| CalcDistances.CalcSelfDistanceArrayOrtho | calc_distances.h:122-153 | The same as CalcSelfDistanceArray, under minimum_image. |
| CalcDistances.SelfIsUpperTriangle | calc_distances.h:111-116 | The slot of (i, j) in the self array holds cell i*n + j of the full distance array of ref against itself. |
| CalcDistances.CalcBondDistance | calc_distances.h:155-172 | distances[i] is the distance from atom2[i] to atom1[i] for i < numatom. Later cells are unchanged. |
| CalcDistances.CalcBondDistanceOrtho | calc_distances.h:174-198 | The same as CalcBondDistance, under minimum_image. |
| CalcDistances.ImageOdd | calc_distances.h:34-44 | The image of -d is minus the image of d. |
| CalcDistances.DistanceSymmetric | calc_distances.h:83-89 | The (periodic) distance from p to q equals the distance from q to p. |
| CalcDistances.BondDistancesSwap | calc_distances.h:189-197 | Swapping atom1 and atom2 leaves every bond distance unchanged. |
| CalcDistances.FlatBoxIsNoBox | calc_distances.h:39 | A box whose edges are all at most FLT_EPSILON wraps nothing. |
| CalcDistances.FlatBoxBonds | calc_distances.h:174-198 | With such a box, the ortho bond kernel computes the same distances as the plain one. |
| CalcDistances.WrappedDistanceBound | calc_distances.h:38-43 | A wrapped squared distance is at most the squared length of half the box diagonal. |
| CalcDistances.ImageIsTranslate | calc_distances.h:34-44 | With exact reciprocals, the image of d is its translate by round(d/edge) edges on each axis. |
| CalcDistances.ImageIsMinimal | calc_distances.h:34-44 | With exact reciprocals, no lattice translate of d is shorter than its image. |
| CalcDistances.DistanceIsMinimumImage | calc_distances.h:174-198 | The wrapped displacement the ortho kernels measure is a whole-edge translate of q - p, and no translate is shorter. |
| Vanilla.WrapIsCorrected | src/compare/vanilla.h:18-19 | Wrapping subtracts from each axis the correction round(r/L)*L. |
| Vanilla.WrappedR2 | src/compare/vanilla.h:15-22 | The axis loop accumulates the squared norm of the wrapped displacement. |
| Vanilla.PlainR2 | src/compare/vanilla.h:31-35 | The axis loop accumulates the squared norm of c1[i] - c2[i]. |
| Vanilla.VanillaCalcBonds | src/compare/vanilla.h:11-25 | output[i] == sqrt of the wrapped r2 of bond i for i < nvals. The rest of output is unchanged. |
| Vanilla.VanillaCalcBondsNoBox | src/compare/vanilla.h:27-38 | output[i] == sqrt of the plain r2 of bond i for i < nvals. The rest is unchanged. |
| Vanilla.Narrow | src/compare/vanilla.h:42-45 | Assigning a size_t index to an unsigned int gives a value below 2^32. An index already below 2^32 is kept. |
| Vanilla.VanillaCalcBondsIdx | src/compare/vanilla.h:39-56 | output[i] is the wrapped distance between the points named by the narrowed idx[2i] and idx[2i+1]. |
| Vanilla.Gather | src/compare/vanilla.h:44-48 | Point i of the gathered buffer is the point named by the narrowed idx[2i + h]. |
| Vanilla.BondsIdxAsBonds | src/compare/vanilla.h:39-56 | VanillaCalcBondsIdx gives exactly what VanillaCalcBonds gives on the gathered first atoms against the gathered second atoms. |
| Vanilla.BondsIdxIdentity | src/lib/tests/test_kernels.cpp:79-81 | With the identity index list, the gathered buffers are the even and the odd points, so bond i joins points 2i and 2i+1. |
| Vanilla.WrapIsImage | src/compare/vanilla.h:17-19 | For edges above FLT_EPSILON, the divide-form wrap equals minimum_image's image. |
| Vanilla.BondsMatchOrtho | calc_distances.h:174-198 | VanillaCalcBonds and _calc_bond_distance_ortho compute the same distances for such boxes. |
| Vanilla.BondsNoBoxMatch | calc_distances.h:155-172 | VanillaCalcBondsNoBox and _calc_bond_distance compute the same distances. |
| Vanilla.WrapOdd | src/compare/vanilla.h:17-19 | Wrapping -d gives minus the wrap of d. |
| Vanilla.WrapLengthOdd | src/compare/vanilla.h:17-21 | d and -d have wrapped displacements of the same length. |
| Vanilla.BondSymmetric | src/compare/vanilla.h:16-23 | Bond i from coords1 to coords2 has the same length as from coords2 to coords1. |
| Vanilla.BondsSymmetric | src/compare/vanilla.h:11-25 | Swapping coords1 and coords2 leaves the whole output unchanged. |
| Vanilla.WrapBound | src/compare/vanilla.h:17-21 | A wrapped displacement is no longer than half the box diagonal. |
| Vanilla.BondBounded | src/compare/vanilla.h:21-23 | Each bond is a nonnegative length, at most half the box diagonal. |
| Vanilla.BondsBounded | src/compare/vanilla.h:11-25 | Every output of VanillaCalcBonds lies in [0, half the box diagonal]. |
| Vanilla.WrapPeriodic | src/compare/vanilla.h:16-20 | Off halfway quotients, moving a displacement by whole boxes leaves its wrap unchanged. |
| Vanilla.InsideUnwrapped | src/compare/vanilla.h:17-19 | A displacement strictly inside half the box is unchanged and has zero correction. |
| Vanilla.InsideNoTie | src/compare/vanilla.h:18 | Such a displacement has no halfway quotient. |
| Vanilla.WrapShiftedInside | src/compare/vanilla.h:16-20 | A displacement inside half the box, moved by any whole boxes, wraps back to itself. |
| Vanilla.AngleOf | src/compare/vanilla.h:73-81 | From rji and rjk, the kernel computes x = rji . rjk, y = sqrt(\|xp\|^2) with xp = rji x rjk, and gives atan2(y, x). |
| Vanilla.PlainDisplacements | src/compare/vanilla.h:93-96 | rji and rjk hold coords1[i] - coords2[i] and coords3[i] - coords2[i]. |
| Vanilla.WrappedDisplacements | src/compare/vanilla.h:65-72 | The intended axis loop: rji and rjk hold the wrapped displacements. |
| Vanilla.VanillaCalcAnglesNoBox | src/compare/vanilla.h:85-107 | output[i] is the angle at coords2[i] between the displacements to coords1[i] and coords3[i]. The rest is unchanged. |
| Vanilla.VanillaCalcAnglesIntended | src/compare/vanilla.h:58-83 | Corrected kernel: output[i] is the angle between the wrapped displacements of triad i. The rest is unchanged. |
| Vanilla.SubtractCorrections | src/compare/vanilla.h:65-72 | The axis loop as written: each of rji and rjk only has the correction round(temp/L)*L of this triad subtracted from its previous contents. |
| Vanilla.AsWrittenAxis | src/compare/vanilla.h:68 | One pass lowers each axis of the stored vector by exactly that axis's correction. |
| Vanilla.VanillaCalcAnglesAsWritten | src/compare/vanilla.h:58-83 | The kernel as written. output[i] is the angle between the arrays' initial contents minus the corrections of triads 0..i. |
| Vanilla.AnglesInsideMatchNoBox | src/compare/vanilla.h:58-107 | When every displacement lies inside half the box, the corrected box kernel gives the no-box angles. |
| Vanilla.AnglesInRange | src/compare/vanilla.h:79-81 | Every angle the corrected kernel VanillaCalcAnglesIntended gives lies in [0, pi]. |
| Vanilla.AnglesNoBoxInRange | src/compare/vanilla.h:103-105 | Every angle VanillaCalcAnglesNoBox gives lies in [0, pi]. |
| Vanilla.AnglesSwap | src/compare/vanilla.h:64-81 | Swapping coords1 and coords3 leaves every angle of the corrected kernel VanillaCalcAnglesIntended unchanged. |
| Vanilla.AnglesNoBoxSwap | src/compare/vanilla.h:92-105 | Swapping coords1 and coords3 leaves every angle of VanillaCalcAnglesNoBox unchanged. |
| Vanilla.AsWrittenStuck | src/compare/vanilla.h:61-71 | When no displacement crosses half the box, the as-written kernel never changes rji and rjk. |
| Vanilla.AnglesAsWrittenIgnoreCoordinates | src/compare/vanilla.h:61-81 | For such triads every as-written output is the angle between the arrays' initial contents, whatever the coordinates. |
| Vanilla.AsWrittenFirstPass | src/compare/vanilla.h:66-68 | Had rji started out holding the first displacement, one as-written pass would leave it holding that displacement wrapped. So the missing store is the whole defect. |
| Geometry.PartialNormSqComplete | src/compare/vanilla.h:16-22 | Summing the three squared components over the axis loop gives the squared norm. |
| Geometry.Lagrange | src/compare/vanilla.h:73-79 | The atan2 arguments satisfy x^2 + \|xp\|^2 == \|rji\|^2 \|rjk\|^2 (Lagrange's identity). |
| Geometry.AngleAxisCases | src/compare/vanilla.h:79-81 | For parallel or degenerate vectors the angle is 0 or pi, decided by the sign of the dot product. For perpendicular non-parallel vectors it is pi/2. |
| Geometry.AngleInRange | src/compare/vanilla.h:79-81 | The angle lies in [0, pi]. |
| Geometry.AngleSymmetric | src/compare/vanilla.h:73-81 | The angle between u and v equals the angle between v and u. |
| AxisPairs.AxisAngles | src/lib/tests/test_kernels.cpp:300 | The fixture's axis pairs give pi/2, pi and 0. |
| KnownValues.BondsOrthoBoxFixture | src/lib/tests/test_kernels.cpp:153-170 | Points 0..9 on the x axis against the origin, box 8: both the vanilla and the minimum_image bond kernels give [0,1,2,3,4,3,2,1,0,1]. |
| KnownValues.BondsNoBoxFixture | src/lib/tests/test_kernels.cpp:172-188 | Without a box, bond i is i. The vanilla and calc_distances kernels agree. |
| KnownValues.AnglesNoBoxFixture | src/lib/tests/test_kernels.cpp:294-309 | The first seven angles are [pi/2, pi, 0, 0, pi/2, pi, 0]. The last is atan2(sqrt 27, 3). |
| KnownValues.AnglesInBoxFixture | src/lib/tests/test_kernels.cpp:311-326 | With box 10 the corrected kernel gives exactly the no-box angles. |
| KnownValues.AnglesOutBoxFixture | src/lib/tests/test_kernels.cpp:328-344 | The triads moved by whole boxes give the in-box angles again. |
| KnownValues.AnglesAsWrittenZero | src/compare/vanilla.h:61-71 | On the in-box fixture, with rji and rjk starting at zero, the as-written kernel gives 0 for all eight triads. |
| KnownValues.AnglesAsWrittenDiverge | src/compare/vanilla.h:66-68 | In that case triad 0 differs: the as-written kernel gives 0, where the corrected kernel gives pi/2. |

## Left out

- Floating point: the model computes over exact reals.
  - Rounding error is not modelled.
  - `float` against `double` is not modelled.
  - The fixtures' `EXPECT_FLOAT_EQ` tolerance is not modelled.
- sqrt and atan2 are parameters, not definitions. atan2 is pinned down by
  two properties:
  - its values on the axes (Libm.Atan2AxisCases), which is all the fixtures need;
  - its range [0, pi] on the closed upper half-plane (Libm.Atan2UpperHalfPlane),
    which Geometry.AngleInRange, Vanilla.AnglesInRange and
    Vanilla.AnglesNoBoxInRange need.
- KnownValues.AnglesNoBoxFixture: the last triad is stated as atan2(sqrt 27, 3),
  not as pi/3. Proving that equal to pi/3 (and to the fixture's
  1.0471976) would need a definition of atan2 off the axes.
- The fixtures call the vectorised entry points (CalcBondsOrtho,
  CalcAnglesOrtho, and so on). These entry points are not part of this model.
  The fixtures' literal expected values are stated here about the vanilla
  reference kernels, which the randomised tests use as the oracle for those
  entry points. The SIMD code behind them is left out for the same reason.
- OpenMP parallelism is not modelled.
  - Each kernel is sequential.
  - The parallel build's distpos offset is proved equal to the sequential
    counter.
- VanillaCalcDihedrals is only declared in vanilla.h (lines 109-111, with no
  body), so it has no behaviour to model.
- C integer widths of the index arithmetic are not modelled. Apart from
  the narrowing below, every index and address is an unbounded natural:
  - `int` overflow of i*numconf+j and of i*(2n-i-1) in calc_distances.h;
  - `int` overflow of the `distpos` counter, which passes 2^31-1 once
    n(n-1)/2 does;
  - `unsigned int` overflow of i*3 in vanilla.h;
  - the `unsigned char` axis counters.
  The narrowing of each size_t index to `unsigned int` is the one width
  that is modelled (Vanilla.Narrow).
- Vanilla.BondsIdx: reads point b = Narrow(idx[k]) at address 3*b + j
  exactly. In C, `b1 * 3 + j` and `b2 * 3 + j` are `unsigned int` and wrap
  mod 2^32 once b reaches 1431655766. The model requires the unwrapped
  address to be inside coords (Vanilla.IndicesInRange) instead.
- Vanilla kernels with a zero box edge are not modelled: they divide by
  zero. The model requires every edge nonzero (Vanilla.NonzeroBox).
- inverse_box of a zero edge is infinite in C. Here it is 0. minimum_image
  never reads it, because such an edge fails the FLT_EPSILON test.
- The uninitialised stack arrays rji and rjk of VanillaCalcAngles are
  modelled as arbitrary initial vectors. They are the ghost results of
  Vanilla.VanillaCalcAnglesAsWritten. C leaves reading them undefined.
- Raw pointers and the `coordinate` array-of-triples type are not modelled.
  Inputs are sequences: of Vec3 in calc_distances.h, and flat sequences of
  3N reals in vanilla.h.
- Output buffers are arrays with at least the required length. The model
  says nothing about writes past the end, which the C code does not check.
- Left out because they do no computation: iostream, the random fixtures of
  the test suite, and the gtest harness.

## Findings

| source | as written | input that shows it | evidently intended | confidence | as-written member | corrected member |
|---|---|---|---|---|---|---|
| src/compare/vanilla.h:61-72 | The uninitialised arrays rji and rjk are never assigned the displacement `temp`. Each pass only does `rji[j] -= adj*box[j]`, so the output depends on the leftover stack contents, and on the coordinates only through the rounding corrections accumulated over all earlier triads. For in-box input (Vanilla.AnglesAsWrittenIgnoreCoordinates) it depends on the stack contents alone. | The in-box angle fixture, box 10, with rji and rjk starting at zero. Triad 0 gives atan2(0, 0) = 0; pi/2 is expected. | `rji[j] = temp - adj*box[j]` and `rjk[j] = temp - adj*box[j]`, the minimum-image displacements. | not executed | Vanilla.VanillaCalcAnglesAsWritten, KnownValues.AnglesAsWrittenDiverge | Vanilla.VanillaCalcAnglesIntended |
