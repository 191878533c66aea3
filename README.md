# bicubic — a verified model in Dafny

`bicubic` interpolates a function over a rectangular, non-uniform grid. The caller gives the grid
lines `x` and `y` and, at every node, the value `f` and the derivatives `fx`, `fy` and `fxy`, all
in row-major order. `from_vec` turns every grid cell into a `Patch`: sixteen power-basis
coefficients of a bicubic on the unit square, computed from the cell's four corners. `sample`
bisects both axes to find the cell that holds a query point. It maps the point into the cell's
unit square and evaluates the patch there. Points on or outside the outer grid lines give 0.

The model has five modules:

- `Wrappers` (`wrappers.dfy`): `Option` and `Result`.
- `CubicHermite` (`hermite.dfy`): one-dimensional cubic Hermite interpolation on [0, 1]. It is the
  reference against which patches are checked.
- `BicubicPatch` (`patch.dfy`, for `src/patch.rs`): `Patch`, `Patch.Sample`, and `FromData` as
  "rescale the derivatives, then change basis" (`UnitParams`, `PowerBasis`). The lemmas prove
  that the change of basis is a bijection onto the corner data. They also prove that a patch
  meets its corner values and corner derivatives exactly, and that along each edge it depends
  only on that edge's two corners.
- `Axis` (`axis.dfy`, the bisection loops of `find_patch`): `Bisect` is proved against the
  linear-scan reference `CellIndex`.
- `Surface` (`surface.dfy`, for `src/lib.rs`): `Bicubic` is a datatype, since nothing mutates it
  after construction. `FindPatch` and `Sample` are its methods, proved against the reference
  lookup `Locate` and the reference value `Value`. `FromVec` is a method with the two nested
  loops of `from_vec`, and its row loop is the method `PushRow`. `FromVec`'s contract says which
  patch sits at every index. The lemmas then prove what the interpolator promises:
  - it is exact at interior nodes;
  - neighbouring patches agree on their shared edge, in value and in the derivative along it;
  - the physical slope across an edge is continuous;
  - all-zero data gives 0 everywhere.

Three facts about the code that a reader might not expect:

- The local coordinates `px`, `py` of a located point lie in (0, 1]. Bisection keeps
  `axis[lower] < q <= axis[upper]` (`src/lib.rs:49-67`), so a point on an interior grid line
  belongs to the cell below it, at local coordinate 1.
- A point on an outer grid line is outside and gives 0 (`src/lib.rs:30-45`). This includes the
  corner node (x[0], y[0]): the interpolator gives 0 there, not f[0].
- An axis with a single line is accepted. Such a grid has no cells, and every query gives 0. Only
  an empty axis makes `x.len() - 1` underflow at `src/lib.rs:104`. The model reports that case
  as the error `AxisEmpty`.

Sortedness of the axes is asked of callers (`src/lib.rs:87`) but never checked. The model does
not require it of `FromVec`. `FindPatch` and `Sample` are tied to the reference lookup only when
both axes are strictly ascending (`Valid`). The smoothness lemmas need it too, because they
divide by cell widths.

## Model

| member | source | states |
|---|---|---|
| `Axis.CellIndex` | src/lib.rs:47-67 | the reference cell of q: the first cell i with axis[i] < q <= axis[i+1], which exists whenever the first line is below q and the last line is not |
| `Axis.BracketIsCellIndex` | src/lib.rs:47-67 | on a strictly ascending axis, any cell holding q is the reference cell: the bisection's answer is unique |
| `Axis.Bisect` | src/lib.rs:46-67 | the bisection loop ends with upper == lower + 1 and axis[lower] < q <= axis[upper], and on an ascending axis lower is the reference cell; its invariant keeps q bracketed while the interval halves |
| `Axis.LineCell` | src/lib.rs:47-67 | an interior grid line i lies strictly inside the axis and belongs to cell i - 1 |
| `BicubicPatch.PowerBasisInterpolates` | src/patch.rs:44-79 | the sixteen coefficient formulas build a patch whose corner values, x-, y- and mixed derivatives are exactly the sixteen parameters given |
| `BicubicPatch.PowerBasisOfHermite` | src/patch.rs:44-79 | every bicubic is the image of its own corner data, so the formulas are a bijection between corner data and patches |
| `BicubicPatch.FromDataInterpolates` | src/patch.rs:32-80 | from_data is total and its patch has, at the corners, the given values and the derivatives rescaled by the cell size |
| `BicubicPatch.FromDataCornerValues` | src/patch.rs:40-79 | the patch takes the values f.0 .. f.3 at (0,0), (1,0), (0,1), (1,1) |
| `BicubicPatch.FromDataCornerDx` | src/patch.rs:41 | the x-derivative at each corner is x_delta times the given fx there |
| `BicubicPatch.FromDataCornerDy` | src/patch.rs:42 | the y-derivative at each corner is y_delta times the given fy there |
| `BicubicPatch.FromDataCornerDxy` | src/patch.rs:43 | the mixed derivative at each corner is x_delta * y_delta times the given fxy there |
| `BicubicPatch.OnLeftEdge` | src/patch.rs:83-89 | on x = 0 the sample is the cubic a00 + a01 y + a02 y^2 + a03 y^3 |
| `BicubicPatch.OnRightEdge` | src/patch.rs:83-89 | on x = 1 the sample is the cubic in y whose coefficients are the column sums of the coefficients |
| `BicubicPatch.OnBottomEdge` | src/patch.rs:83-89 | on y = 0 the sample is the cubic a00 + a10 x + a20 x^2 + a30 x^3 |
| `BicubicPatch.OnTopEdge` | src/patch.rs:83-89 | on y = 1 the sample is the cubic in x whose coefficients are the row sums of the coefficients |
| `BicubicPatch.LeftOf` | src/patch.rs:83-89 | any patch on x = 0 is the cubic Hermite interpolant of its own values and y-slopes at (0,0) and (0,1) |
| `BicubicPatch.RightOf` | src/patch.rs:83-89 | any patch on x = 1 is the cubic Hermite interpolant of its own values and y-slopes at (1,0) and (1,1) |
| `BicubicPatch.BottomOf` | src/patch.rs:83-89 | any patch on y = 0 is the cubic Hermite interpolant of its own values and x-slopes at (0,0) and (1,0) |
| `BicubicPatch.TopOf` | src/patch.rs:83-89 | any patch on y = 1 is the cubic Hermite interpolant of its own values and x-slopes at (0,1) and (1,1) |
| `BicubicPatch.TangentLeftOf` | src/patch.rs:83-89 | on x = 0 the y-derivative of any patch is the slope of the Hermite interpolant of its own end values and y-slopes |
| `BicubicPatch.TangentRightOf` | src/patch.rs:83-89 | on x = 1 the y-derivative of any patch is the slope of the Hermite interpolant of its own end values and y-slopes |
| `BicubicPatch.TangentBottomOf` | src/patch.rs:83-89 | on y = 0 the x-derivative of any patch is the slope of the Hermite interpolant of its own end values and x-slopes |
| `BicubicPatch.TangentTopOf` | src/patch.rs:83-89 | on y = 1 the x-derivative of any patch is the slope of the Hermite interpolant of its own end values and x-slopes |
| `BicubicPatch.EdgeBottom` | src/patch.rs:44-79 | along y = 0 the built patch is the Hermite interpolant of the data at corners 0 and 1 alone |
| `BicubicPatch.EdgeTop` | src/patch.rs:44-79 | along y = 1 the built patch is the Hermite interpolant of the data at corners 2 and 3 alone |
| `BicubicPatch.EdgeLeft` | src/patch.rs:44-79 | along x = 0 the built patch is the Hermite interpolant of the data at corners 0 and 2 alone |
| `BicubicPatch.EdgeRight` | src/patch.rs:44-79 | along x = 1 the built patch is the Hermite interpolant of the data at corners 1 and 3 alone |
| `BicubicPatch.SlopeAcrossLeftRight` | src/patch.rs:44-79 | the x-slope along x = 0 (x = 1) is the Hermite interpolant of fx and fxy at corners 0 and 2 (1 and 3) alone |
| `BicubicPatch.SlopeAcrossBottomTop` | src/patch.rs:44-79 | the y-slope along y = 0 (y = 1) is the Hermite interpolant of fy and fxy at corners 0 and 1 (2 and 3) alone |
| `BicubicPatch.RowSlopesInX` | src/patch.rs:83-89 | Dx is the derivative in x of the sample taken as a cubic in x |
| `BicubicPatch.AcrossX` | src/patch.rs:83-89 | at every height a patch is the Hermite interpolant in x of its values and x-slopes on the edges x = 0 and x = 1 |
| `BicubicPatch.PowerBasisIsTensorHermite` | src/patch.rs:44-89 | the built patch equals the tensor-product cubic Hermite interpolant of its corner data at every (x, y) |
| `BicubicPatch.FromDataBottom` | src/patch.rs:32-80 | along y = 0 the patch depends only on f and x_delta * fx at corners 0 and 1 |
| `BicubicPatch.FromDataTop` | src/patch.rs:32-80 | along y = 1 the patch depends only on f and x_delta * fx at corners 2 and 3 |
| `BicubicPatch.FromDataLeft` | src/patch.rs:32-80 | along x = 0 the patch depends only on f and y_delta * fy at corners 0 and 2 |
| `BicubicPatch.FromDataRight` | src/patch.rs:32-80 | along x = 1 the patch depends only on f and y_delta * fy at corners 1 and 3 |
| `BicubicPatch.FromDataTangentLeftRight` | src/patch.rs:32-80 | the y-derivative along x = 0 (x = 1) depends only on f and y_delta * fy at corners 0 and 2 (1 and 3) |
| `BicubicPatch.FromDataTangentBottomTop` | src/patch.rs:32-80 | the x-derivative along y = 0 (y = 1) depends only on f and x_delta * fx at corners 0 and 1 (2 and 3) |
| `BicubicPatch.ScaleOutLeftEdge` | src/patch.rs:40-43 | the rescaled slope data across x = 0 interpolates to x_delta times the interpolant of the physical data |
| `BicubicPatch.ScaleOutRightEdge` | src/patch.rs:40-43 | the same across x = 1 |
| `BicubicPatch.ScaleOutBottomEdge` | src/patch.rs:40-43 | the rescaled slope data across y = 0 interpolates to y_delta times the interpolant of the physical data |
| `BicubicPatch.ScaleOutTopEdge` | src/patch.rs:40-43 | the same across y = 1 |
| `BicubicPatch.FromDataSlopeLeft` | src/patch.rs:32-80 | the x-slope along x = 0 is x_delta times the Hermite interpolant of fx and y_delta * fxy at corners 0 and 2 |
| `BicubicPatch.FromDataSlopeRight` | src/patch.rs:32-80 | the x-slope along x = 1 is x_delta times the Hermite interpolant of fx and y_delta * fxy at corners 1 and 3 |
| `BicubicPatch.FromDataSlopeBottom` | src/patch.rs:32-80 | the y-slope along y = 0 is y_delta times the Hermite interpolant of fy and x_delta * fxy at corners 0 and 1 |
| `BicubicPatch.FromDataSlopeTop` | src/patch.rs:32-80 | the y-slope along y = 1 is y_delta times the Hermite interpolant of fy and x_delta * fxy at corners 2 and 3 |
| `BicubicPatch.ZeroCoefficients` | src/patch.rs:44-79 | all-zero corner data gives sixteen zero coefficients, whatever the cell size |
| `BicubicPatch.ZeroPatch` | src/patch.rs:83-89 | the all-zero patch samples to 0 everywhere |
| `BicubicPatch.ZeroData` | src/patch.rs:32-89 | a patch built from all-zero data samples to 0 at every point |
| `BicubicPatch.DxIsDerivative` | src/patch.rs:83-89 | moving by e in x changes the sample by e * Dx plus terms in e^2 and e^3: Dx is the partial derivative in x |
| `BicubicPatch.DyIsDerivative` | src/patch.rs:83-89 | moving by e in y changes the sample by e * Dy plus terms in e^2 and e^3: Dy is the partial derivative in y |
| `BicubicPatch.Expanded` | src/patch.rs:84-87 | the sample is the sum of the sixteen monomials aij x^i y^j |
| `BicubicPatch.ColumnsInY` | src/patch.rs:84-87 | the same polynomial read as a cubic in y whose coefficients are cubics in x |
| `BicubicPatch.SharedEdgeX` | src/patch.rs:32-80 | two cells side by side whose shared edge carries the same values and y-derivatives give the same sample along it |
| `BicubicPatch.SharedEdgeY` | src/patch.rs:32-80 | two cells one above the other whose shared edge carries the same values and x-derivatives give the same sample along it |
| `BicubicPatch.TangentAcrossX` | src/patch.rs:32-80 | two cells side by side whose shared edge carries the same values and y-derivatives have the same y-derivative along it |
| `BicubicPatch.TangentAcrossY` | src/patch.rs:32-80 | two cells one above the other whose shared edge carries the same values and x-derivatives have the same x-derivative along it |
| `BicubicPatch.MatchedSlopeX` | src/patch.rs:32-80 | with matching fx and fxy on the shared edge, the local x-slopes divided by the cell widths agree on both sides |
| `BicubicPatch.MatchedSlopeY` | src/patch.rs:32-80 | with matching fy and fxy on the shared edge, the local y-slopes divided by the cell heights agree on both sides |
| `Surface.InputError` | src/lib.rs:98-104 | the length checks in source order: no error exactly when len(f) == len(x)·len(y), len(fx) == len(fy) == len(fxy) == len(f) and both axes are non-empty; otherwise the first failing check in the order f, fx, fy, fxy, empty axis gives its error, a bad len(f) with the actual and expected lengths |
| `Surface.RowMajorValue` | src/lib.rs:116 | the row-major index of (col, row) in rows of width w is col + row * w |
| `Surface.RowMajorRows` | src/lib.rs:104-106 | h full rows of w cells hold w * h patches |
| `Surface.RowMajorInRow` | src/lib.rs:105-106 | within a row the index grows by one per cell |
| `Surface.RowMajorUnique` | src/lib.rs:105-106 | no two distinct cells of the whole grid share an index, so each patch slot is written once |
| `Surface.CornerInRange` | src/lib.rs:116-128 | all four corner indices patch_index, +1, +row_len and +row_len+1 of every cell are below len(x)·len(y) = len(f) |
| `Surface.PatchIndexInRange` | src/lib.rs:71 | the index y_lower * (len(x)-1) + x_lower of a cell is below the number of patches |
| `Surface.CellAppended` | src/lib.rs:129-131 | pushing the next cell's patch in row-major order keeps every earlier cell's patch at its index |
| `Surface.Normalise` | src/lib.rs:69-70 | px and py lie in (0, 1] |
| `Surface.NormaliseInverts` | src/lib.rs:69-70 | mapping the local coordinate back through the cell gives the query coordinate |
| `Surface.NormaliseAtLine` | src/lib.rs:69-70 | the upper grid line of a cell has local coordinate 1 |
| `Surface.Bicubic.Locate` | src/lib.rs:29-72 | reference lookup: no patch exactly when the point is on or beyond an outer grid line; otherwise local coordinates in (0, 1] |
| `Surface.Bicubic.PatchOf` | src/lib.rs:71 | the patch at index y_lower * (len(x)-1) + x_lower is one of the stored patches (the index is in range) |
| `Surface.Bicubic.FindPatch` | src/lib.rs:29-72 | None exactly on or outside the outer lines; otherwise one of the patches with px, py in (0, 1]; on ascending axes the reference lookup's cell and coordinates |
| `Surface.Bicubic.FindInside` | src/lib.rs:46-71 | for a point strictly inside the grid: one of the patches with px, py in (0, 1]; on ascending axes exactly the reference lookup |
| `Surface.Bicubic.LocateBracketed` | src/lib.rs:46-71 | on ascending axes, the reference lookup of an inside point is the patch and local coordinates of any cell pair that brackets it |
| `Surface.Bicubic.Sample` | src/lib.rs:77-82 | 0 on or outside the outer lines; on ascending axes the located patch sampled at the local coordinates, or 0 when there is none |
| `Surface.BuildPatch` | src/lib.rs:107-129 | one cell's patch: from_data of the cell widths and of the data at nodes k, k+1, k+len(x), k+len(x)+1 with k = xi + yi * len(x) |
| `Surface.PushRow` | src/lib.rs:106-132 | the inner loop appends exactly the len(x)-1 patches of row yi, each at its row-major index, keeping the earlier ones |
| `Surface.FromVec` | src/lib.rs:90-135 | a failing length check gives its error; otherwise the axes are copied and there are (len(x)-1)·(len(y)-1) patches, the one at index xi + yi * (len(x)-1) built from cell (xi, yi)'s corner data |
| `Surface.PatchAt` | src/lib.rs:103-134 | the slot find_patch reads for cell (xi, yi) holds the patch from_vec built from that cell |
| `Surface.UpperCorner` | src/lib.rs:116-118 | the upper-right corner of cell (i-1, j-1) is node i + j * len(x) |
| `Surface.LocateNode` | src/lib.rs:29-72 | an interior node is located in the cell below and left of it, at local coordinates (1, 1) |
| `Surface.CellUpperCorner` | src/lib.rs:116-129 | the patch of cell (i-1, j-1) takes the value of node (i, j) at its corner (1, 1) |
| `Surface.StoredUpperCorner` | src/lib.rs:103-134 | the stored patch of cell (i-1, j-1) takes the value of node (i, j) at its corner (1, 1) |
| `Surface.NodeExact` | src/lib.rs:77-134 | at every interior node (x[i], y[j]) the interpolator returns f[i + j * len(x)] |
| `Surface.ContinuousAcrossX` | src/lib.rs:116-129 | horizontally neighbouring patches give the same value all along their shared grid line |
| `Surface.ContinuousAcrossY` | src/lib.rs:116-129 | vertically neighbouring patches give the same value all along their shared grid line |
| `Surface.EdgeTangentAcrossX` | src/lib.rs:116-129 | horizontally neighbouring patches have the same y-derivative all along their shared grid line |
| `Surface.EdgeTangentAcrossY` | src/lib.rs:116-129 | vertically neighbouring patches have the same x-derivative all along their shared grid line |
| `Surface.SmoothAcrossX` | src/lib.rs:116-129 | on an ascending x axis the x-slope in physical units is the same on both sides of a shared vertical grid line |
| `Surface.SmoothAcrossY` | src/lib.rs:116-129 | on an ascending y axis the y-slope in physical units is the same on both sides of a shared horizontal grid line |
| `Surface.ZeroSurface` | src/lib.rs:6-11 | with all-zero node data the interpolator gives 0 at every point |

## Left out

- Floating point: every `f64` is a real number. Rounding, NaN and infinities are not modelled.
  Coinciding grid lines give zero-width cells. `from_vec` then builds a degenerate patch from a
  zero `x_delta` or `y_delta`, which the model covers. The `SmoothAcross*` statements divide by
  cell widths and so need strictly ascending axes. `find_patch` never divides by zero: its
  bracket `axis[lower] < q <= axis[upper]` keeps the denominator positive on any axis.
- Integer width: `usize` arithmetic is unbounded. Only the underflow of `x.len() - 1` on an empty
  axis is modelled, as the error `AxisEmpty`. An overflow of `x.len() * y.len()` is not.
- The `assert!` panics of `from_vec` (`src/lib.rs:98-101`) become `Err` values of `BuildError`.
  Their message text is not modelled.
- The `println!` of every patch (`src/lib.rs:130`) and the commented-out one (`src/lib.rs:68`)
  are output only and are left out. So is the `Debug` derivation of `Patch`.
- `Vec::with_capacity` (`src/lib.rs:104`) only reserves memory. The model starts from the empty
  sequence.
- `find_patch` returns a reference into `patches`. The model returns the patch value, and
  `FindPatch` states that it is one of the stored patches.
- `src/tests.rs` and the plotting script `testing/plot.py` are not part of this model.
- `Surface.BuildPatch` and `Surface.PushRow` are factored out of the two nested loops of
  `from_vec` (the loop body and the inner loop), to keep each proof small. In the same way,
  `Surface.Bicubic.FindInside` is the part of `find_patch` after its four boundary checks. Each
  runs the same steps in the same order as the source.
- `Surface.Bicubic.FindPatch`: for axes that are not strictly ascending, states only that the
  result is one of the stored patches with local coordinates in (0, 1]. It does not state which
  patch. The source promises nothing for such axes either.
- `Surface.Bicubic.FindInside`: for axes that are not strictly ascending, states only that the
  result is one of the stored patches with local coordinates in (0, 1], as `FindPatch` does.
- `Surface.Bicubic.Sample`: for axes that are not strictly ascending, states only that points on
  or outside the outer grid lines give 0.
- `BicubicPatch.DxIsDerivative`: the derivative is stated as the exact Taylor expansion of the
  cubic, not as a limit, because the model has no real analysis. The same holds for
  `BicubicPatch.DyIsDerivative`.
