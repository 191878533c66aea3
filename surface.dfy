/**
 * The interpolated surface over a rectilinear grid (src/lib.rs).
 *
 * Node data is given row by row: the node at column i and row j (x[i], y[j]) has flat index
 * i + j * |x|. Cell (xi, yi) spans [x[xi], x[xi + 1]] x [y[yi], y[yi + 1]] and owns one patch,
 * stored at index yi * (|x| - 1) + xi.
 */
module Surface {
  import opened Wrappers
  import opened Axis
  import opened CubicHermite
  import opened BicubicPatch

  /** Why from_vec refuses its input (src/lib.rs:98-101 and the subtraction at src/lib.rs:104). */
  datatype BuildError =
    | FBadDimensions(actual: nat, expected: nat)  // |f| != |x| * |y|
    | FxBadLength                                 // |fx| != |f|
    | FyBadLength                                 // |fy| != |f|
    | FxyBadLength                                // |fxy| != |f|
    | AxisEmpty                                   // |x| - 1 or |y| - 1 underflows

  /** The node data fits the grid: one value and three derivatives per node. */
  predicate GridData(x: seq<real>, y: seq<real>, f: seq<real>, fx: seq<real>, fy: seq<real>, fxy: seq<real>)
  {
    |f| == |x| * |y| && |fx| == |f| && |fy| == |f| && |fxy| == |f|
  }

  /** The first failing input check of from_vec, in the order the source makes them. */
  function InputError(x: seq<real>, y: seq<real>, f: seq<real>, fx: seq<real>, fy: seq<real>, fxy: seq<real>): (r: Option<BuildError>)
    ensures r.None? <==> GridData(x, y, f, fx, fy, fxy) && |x| >= 1 && |y| >= 1
    ensures |f| != |x| * |y| ==> r == Some(FBadDimensions(|f|, |x| * |y|))
    ensures |f| == |x| * |y| && |fx| != |f| ==> r == Some(FxBadLength)
    ensures |f| == |x| * |y| && |fx| == |f| && |fy| != |f| ==> r == Some(FyBadLength)
    ensures |f| == |x| * |y| && |fx| == |f| && |fy| == |f| && |fxy| != |f| ==> r == Some(FxyBadLength)
    ensures GridData(x, y, f, fx, fy, fxy) && (|x| == 0 || |y| == 0) ==> r == Some(AxisEmpty)
  {
    if |f| != |x| * |y| then Some(FBadDimensions(|f|, |x| * |y|))
    else if |fx| != |f| then Some(FxBadLength)
    else if |fy| != |f| then Some(FyBadLength)
    else if |fxy| != |f| then Some(FxyBadLength)
    else if |x| == 0 || |y| == 0 then Some(AxisEmpty)
    else None
  }

  /**
   * The index of entry (col, row) of a grid stored row by row, w entries to a row, counted one row
   * at a time. It is row * w + col (RowMajorValue). Both the node data (rows of |x| nodes) and the
   * patches (rows of |x| - 1 cells) are laid out this way; keeping the product out of sight keeps
   * the proofs about neighbouring entries in linear arithmetic.
   */
  function RowMajor(w: nat, col: nat, row: nat): nat
  {
    if row == 0 then col else w + RowMajor(w, col, row - 1)
  }

  /** RowMajor is the row-major index the source computes. */
  lemma {:induction false} RowMajorValue(w: nat, col: nat, row: nat)
    ensures RowMajor(w, col, row) == row * w + col
  {
    if row > 0 {
      RowMajorValue(w, col, row - 1);
    }
  }

  /** h full rows of width w hold w * h entries. */
  lemma {:induction false} RowMajorRows(w: nat, h: nat)
    ensures RowMajor(w, 0, h) == w * h
  {
    RowMajorValue(w, 0, h);
  }

  /** Within a row the index grows by one per entry. */
  lemma {:induction false} RowMajorInRow(w: nat, col: nat, row: nat)
    ensures RowMajor(w, col, row) == RowMajor(w, 0, row) + col
  {
    if row > 0 {
      RowMajorInRow(w, col, row - 1);
    }
  }

  /** Row-major order: a cell in an earlier row has a smaller index, whatever the columns. */
  lemma RowsApart(w: nat, a: nat, c: nat, xi: nat, yi: nat)
    requires a < w && xi < w
    ensures c < yi ==> c * w + a < yi * w + xi
    ensures yi < c ==> yi * w + xi < c * w + a
  {
    if c < yi {
      assert (c + 1) * w <= yi * w;
    } else if yi < c {
      assert (yi + 1) * w <= c * w;
    }
  }

  /** No two entries of a row-major grid share an index. */
  lemma RowMajorUnique(w: nat, a: nat, c: nat, xi: nat, yi: nat)
    requires a < w && xi < w
    requires RowMajor(w, a, c) == RowMajor(w, xi, yi)
    ensures a == xi && c == yi
  {
    RowMajorValue(w, a, c);
    RowMajorValue(w, xi, yi);
    RowsApart(w, a, c, xi, yi);
  }

  /**
   * The four corner nodes of cell (xi, yi) have flat indices below |x| * |y|: the first corner is
   * node RowMajor(|x|, xi, yi), the last one |x| + 1 entries further on.
   */
  lemma CornerInRange(nx: nat, ny: nat, xi: nat, yi: nat)
    requires xi + 1 < nx && yi + 1 < ny
    ensures RowMajor(nx, xi, yi) + nx + 1 < nx * ny
  {
    RowMajorValue(nx, xi, yi);
    assert (yi + 1) * nx <= (ny - 1) * nx;
  }

  /** Patch index yi * w + xi of a cell is below the number of cells w * h. */
  lemma PatchIndexInRange(w: nat, h: nat, xi: nat, yi: nat)
    requires xi < w && yi < h
    ensures yi * w + xi < w * h
  {
    assert (yi + 1) * w <= h * w;
  }

  /** One node quantity at the four corners (0, 0), (1, 0), (0, 1), (1, 1) of the cell whose first corner is k. */
  function CornerQuad(v: seq<real>, k: nat, rowLen: nat): Quad
    requires k + rowLen + 1 < |v|
  {
    Quad(v[k], v[k + 1], v[k + rowLen], v[k + rowLen + 1])
  }

  /** The patch from_vec builds for cell (xi, yi). */
  function CellPatch(x: seq<real>, y: seq<real>, f: seq<real>, fx: seq<real>, fy: seq<real>, fxy: seq<real>, xi: nat, yi: nat): Patch
    requires GridData(x, y, f, fx, fy, fxy)
    requires xi + 1 < |x| && yi + 1 < |y|
  {
    CornerInRange(|x|, |y|, xi, yi);
    var k := RowMajor(|x|, xi, yi);
    FromData(Width(x, xi), Width(y, yi),
             CornerQuad(f, k, |x|), CornerQuad(fx, k, |x|), CornerQuad(fy, k, |x|), CornerQuad(fxy, k, |x|))
  }

  /** Every cell whose index is below |patches| holds its own patch there. */
  predicate CellsInPlace(x: seq<real>, y: seq<real>, f: seq<real>, fx: seq<real>, fy: seq<real>, fxy: seq<real>,
                         patches: seq<Patch>)
    requires GridData(x, y, f, fx, fy, fxy)
  {
    forall xi: nat, yi: nat :: xi + 1 < |x| && yi + 1 < |y| && RowMajor(|x| - 1, xi, yi) < |patches| ==>
      patches[RowMajor(|x| - 1, xi, yi)] == CellPatch(x, y, f, fx, fy, fxy, xi, yi)
  }

  /** Appending the patch of the next cell, in row-major order, keeps every cell in place. */
  lemma {:induction false} CellAppended(x: seq<real>, y: seq<real>, f: seq<real>, fx: seq<real>, fy: seq<real>, fxy: seq<real>,
                                         patches: seq<Patch>, xi: nat, yi: nat)
    requires GridData(x, y, f, fx, fy, fxy)
    requires xi + 1 < |x| && yi + 1 < |y|
    requires |patches| == RowMajor(|x| - 1, xi, yi)
    requires CellsInPlace(x, y, f, fx, fy, fxy, patches)
    ensures CellsInPlace(x, y, f, fx, fy, fxy, patches + [CellPatch(x, y, f, fx, fy, fxy, xi, yi)])
  {
    var next := patches + [CellPatch(x, y, f, fx, fy, fxy, xi, yi)];
    forall a: nat, c: nat | a + 1 < |x| && c + 1 < |y| && RowMajor(|x| - 1, a, c) < |next|
      ensures next[RowMajor(|x| - 1, a, c)] == CellPatch(x, y, f, fx, fy, fxy, a, c)
    {
      if RowMajor(|x| - 1, a, c) == |patches| {
        RowMajorUnique(|x| - 1, a, c, xi, yi);
      }
    }
  }

  /** The result of a successful lookup: the cell's patch and the point in its local coordinates. */
  datatype Located = Located(patch: Patch, px: real, py: real)

  /** The local coordinate of q in cell i of an axis (src/lib.rs:69-70): it lies in (0, 1]. */
  function Normalise(axis: seq<real>, i: nat, q: real): (r: real)
    requires Brackets(axis, i, q)
    ensures 0.0 < r <= 1.0
  {
    (q - axis[i]) / (axis[i + 1] - axis[i])
  }

  /** The affine map of the cell takes the local coordinate back to q. */
  lemma NormaliseInverts(axis: seq<real>, i: nat, q: real)
    requires Brackets(axis, i, q)
    ensures axis[i] + Normalise(axis, i, q) * (axis[i + 1] - axis[i]) == q
  {
  }

  /** The upper grid line of a cell has local coordinate 1. */
  lemma NormaliseAtLine(axis: seq<real>, i: nat)
    requires 0 <= i < |axis| - 1 && axis[i] < axis[i + 1]
    ensures Normalise(axis, i, axis[i + 1]) == 1.0
  {
  }

  /** The interpolator: the grid lines and one patch per cell, row by row (src/lib.rs:19-23). */
  datatype Bicubic = Bicubic(x: seq<real>, y: seq<real>, patches: seq<Patch>)
  {
    /** What from_vec guarantees of every value it returns. */
    predicate WellFormed()
    {
      |x| >= 1 && |y| >= 1 && |patches| == (|x| - 1) * (|y| - 1)
    }

    /** Well formed, with the ascending axes the documentation asks for (src/lib.rs:87). */
    predicate Valid()
    {
      WellFormed() && StrictlyAscending(x) && StrictlyAscending(y)
    }

    /** The patch of cell (xi, yi): the patches are stored row by row, at index xi + yi * (|x| - 1). */
    function PatchOf(xi: nat, yi: nat): (p: Patch)
      requires WellFormed()
      requires xi + 1 < |x| && yi + 1 < |y|
      ensures p in patches
    {
      PatchIndexInRange(|x| - 1, |y| - 1, xi, yi);
      patches[yi * (|x| - 1) + xi]
    }

    /** On or beyond an outer grid line: find_patch has no patch there (src/lib.rs:30-45). */
    predicate Outside(qx: real, qy: real)
      requires WellFormed()
    {
      qx <= x[0] || qx >= x[|x| - 1] || qy <= y[0] || qy >= y[|y| - 1]
    }

    /** Reference lookup: the unique cell holding the point, its patch and the local coordinates. */
    function Locate(qx: real, qy: real): (r: Option<Located>)
      requires WellFormed()
      ensures r.None? <==> Outside(qx, qy)
      ensures r.Some? ==> 0.0 < r.value.px <= 1.0 && 0.0 < r.value.py <= 1.0
    {
      if Outside(qx, qy) then None
      else
        var xi, yi := CellIndex(x, qx), CellIndex(y, qy);
        Some(Located(PatchOf(xi, yi), Normalise(x, xi, qx), Normalise(y, yi, qy)))
    }

    /**
     * Bicubic::find_patch: reject points on or outside the outer grid lines, then search the
     * cell holding the point.
     */
    method FindPatch(qx: real, qy: real) returns (r: Option<Located>)
      requires WellFormed()
      ensures r.None? <==> Outside(qx, qy)
      ensures r.Some? ==> r.value.patch in patches && 0.0 < r.value.px <= 1.0 && 0.0 < r.value.py <= 1.0
      ensures Valid() ==> r == Locate(qx, qy)
    {
      if qx <= x[0] {
        return None;
      }
      if qx >= x[|x| - 1] {
        return None;
      }
      if qy <= y[0] {
        return None;
      }
      if qy >= y[|y| - 1] {
        return None;
      }
      var found := FindInside(qx, qy);
      r := Some(found);
    }

    /**
     * The rest of find_patch, for a point strictly inside the grid: bisect each axis, normalise
     * the point into the cell found and take that cell's patch.
     */
    method FindInside(qx: real, qy: real) returns (r: Located)
      requires WellFormed() && !Outside(qx, qy)
      ensures r.patch in patches && 0.0 < r.px <= 1.0 && 0.0 < r.py <= 1.0
      ensures Valid() ==> Some(r) == Locate(qx, qy)
    {
      var yLower, yUpper := Bisect(y, qy);
      var xLower, xUpper := Bisect(x, qx);
      var px := (qx - x[xLower]) / (x[xUpper] - x[xLower]);
      var py := (qy - y[yLower]) / (y[yUpper] - y[yLower]);
      assert px == Normalise(x, xLower, qx) && py == Normalise(y, yLower, qy);
      r := Located(PatchOf(xLower, yLower), px, py);
      if Valid() {
        LocateBracketed(qx, qy, xLower, yLower);
      }
    }

    /** Inside the grid, the reference lookup finds any cell that brackets the point, on ascending axes. */
    lemma LocateBracketed(qx: real, qy: real, xi: nat, yi: nat)
      requires Valid() && !Outside(qx, qy)
      requires Brackets(x, xi, qx) && Brackets(y, yi, qy)
      ensures Locate(qx, qy) == Some(Located(PatchOf(xi, yi), Normalise(x, xi, qx), Normalise(y, yi, qy)))
    {
      BracketIsCellIndex(x, qx, xi);
      BracketIsCellIndex(y, qy, yi);
    }

    /** The value the interpolator gives at a point: the located patch there, 0 outside. */
    function Value(qx: real, qy: real): real
      requires WellFormed()
    {
      match Locate(qx, qy)
      case None => 0.0
      case Some(l) => l.patch.Sample(l.px, l.py)
    }

    /** Bicubic::sample: the located patch at the local coordinates, or 0 where there is none. */
    method Sample(qx: real, qy: real) returns (z: real)
      requires WellFormed()
      ensures Outside(qx, qy) ==> z == 0.0
      ensures Valid() ==> z == Value(qx, qy)
    {
      var found := FindPatch(qx, qy);
      match found
      case Some(l) =>
        z := l.patch.Sample(l.px, l.py);
      case None =>
        z := 0.0;
    }
  }

  /**
   * b is what from_vec builds from this node data: well formed over its own axes, and for every
   * cell (xi, yi) the patch at row-major index yi * (|x| - 1) + xi is the patch of that cell.
   */
  predicate BuiltFrom(b: Bicubic, f: seq<real>, fx: seq<real>, fy: seq<real>, fxy: seq<real>)
  {
    && b.WellFormed()
    && GridData(b.x, b.y, f, fx, fy, fxy)
    && CellsInPlace(b.x, b.y, f, fx, fy, fxy, b.patches)
  }

  /**
   * The body of from_vec's inner loop: the cell's widths, the index of its first corner node, the
   * four corner values of each node quantity, and the patch made from them.
   */
  method BuildPatch(x: seq<real>, y: seq<real>, f: seq<real>, fx: seq<real>, fy: seq<real>, fxy: seq<real>, xi: nat, yi: nat)
    returns (patch: Patch)
    requires GridData(x, y, f, fx, fy, fxy)
    requires xi + 1 < |x| && yi + 1 < |y|
    ensures patch == CellPatch(x, y, f, fx, fy, fxy, xi, yi)
  {
    var rowLen := |x|;
    var xMin, xMax := x[xi], x[xi + 1];
    var yMin, yMax := y[yi], y[yi + 1];
    var xDelta := xMax - xMin;
    var yDelta := yMax - yMin;
    var patchIndex := xi + yi * rowLen;
    CornerInRange(|x|, |y|, xi, yi);
    RowMajorValue(|x|, xi, yi);
    var cf := Quad(f[patchIndex], f[patchIndex + 1], f[patchIndex + rowLen], f[patchIndex + rowLen + 1]);
    var cfx := Quad(fx[patchIndex], fx[patchIndex + 1], fx[patchIndex + rowLen], fx[patchIndex + rowLen + 1]);
    var cfy := Quad(fy[patchIndex], fy[patchIndex + 1], fy[patchIndex + rowLen], fy[patchIndex + rowLen + 1]);
    var cfxy := Quad(fxy[patchIndex], fxy[patchIndex + 1], fxy[patchIndex + rowLen], fxy[patchIndex + rowLen + 1]);
    patch := FromData(xDelta, yDelta, cf, cfx, cfy, cfxy);
  }

  /**
   * Where find_patch looks for the patch of cell (xi, yi), at index xi + yi * (|x| - 1), from_vec
   * has put the patch made from that cell's corner data.
   */
  lemma {:induction false} PatchAt(b: Bicubic, f: seq<real>, fx: seq<real>, fy: seq<real>, fxy: seq<real>, xi: nat, yi: nat)
    requires BuiltFrom(b, f, fx, fy, fxy)
    requires xi + 1 < |b.x| && yi + 1 < |b.y|
    ensures b.PatchOf(xi, yi) == CellPatch(b.x, b.y, f, fx, fy, fxy, xi, yi)
  {
    RowMajorValue(|b.x| - 1, xi, yi);
    PatchIndexInRange(|b.x| - 1, |b.y| - 1, xi, yi);
  }

  /**
   * One pass of from_vec's inner loop: the patches of row yi, cell by cell from xi = 0, are
   * appended to the patches of the rows before it.
   */
  method PushRow(x: seq<real>, y: seq<real>, f: seq<real>, fx: seq<real>, fy: seq<real>, fxy: seq<real>,
                 patches: seq<Patch>, yi: nat) returns (out: seq<Patch>)
    requires GridData(x, y, f, fx, fy, fxy) && |x| >= 1 && yi + 1 < |y|
    requires |patches| == RowMajor(|x| - 1, 0, yi) && CellsInPlace(x, y, f, fx, fy, fxy, patches)
    ensures |out| == RowMajor(|x| - 1, 0, yi + 1) && CellsInPlace(x, y, f, fx, fy, fxy, out)
  {
    out := patches;
    var xi := 0;
    while xi < |x| - 1
      invariant 0 <= xi <= |x| - 1
      invariant |out| == RowMajor(|x| - 1, xi, yi)
      invariant CellsInPlace(x, y, f, fx, fy, fxy, out)
    {
      var patch := BuildPatch(x, y, f, fx, fy, fxy, xi, yi);
      CellAppended(x, y, f, fx, fy, fxy, out, xi, yi);
      RowMajorInRow(|x| - 1, xi, yi);
      RowMajorInRow(|x| - 1, xi + 1, yi);
      out := out + [patch];
      xi := xi + 1;
    }
    RowMajorInRow(|x| - 1, |x| - 1, yi);
  }

  /**
   * from_vec: check the input lengths, then build the patches row by row, each from the
   * corner data of its cell, and keep copies of the axes.
   */
  method FromVec(x: seq<real>, y: seq<real>, f: seq<real>, fx: seq<real>, fy: seq<real>, fxy: seq<real>)
    returns (r: Result<Bicubic, BuildError>)
    ensures InputError(x, y, f, fx, fy, fxy).Some? ==> r == Err(InputError(x, y, f, fx, fy, fxy).value)
    ensures InputError(x, y, f, fx, fy, fxy).None? ==> r.Ok? && r.value.x == x && r.value.y == y && BuiltFrom(r.value, f, fx, fy, fxy)
  {
    if |f| != |x| * |y| {
      return Err(FBadDimensions(|f|, |x| * |y|));
    }
    if |fx| != |f| {
      return Err(FxBadLength);
    }
    if |fy| != |f| {
      return Err(FyBadLength);
    }
    if |fxy| != |f| {
      return Err(FxyBadLength);
    }
    if |x| == 0 || |y| == 0 {
      return Err(AxisEmpty);
    }
    var patches: seq<Patch> := [];
    var yi := 0;
    while yi < |y| - 1
      invariant 0 <= yi <= |y| - 1
      invariant |patches| == RowMajor(|x| - 1, 0, yi)
      invariant CellsInPlace(x, y, f, fx, fy, fxy, patches)
    {
      patches := PushRow(x, y, f, fx, fy, fxy, patches, yi);
      yi := yi + 1;
    }
    RowMajorRows(|x| - 1, |y| - 1);
    r := Ok(Bicubic(x, y, patches));
  }

  /** The upper-right corner of cell (i - 1, j - 1) is grid node (i, j). */
  lemma {:induction false} UpperCorner(w: nat, i: nat, j: nat)
    requires 0 < i && 0 < j
    ensures RowMajor(w, i - 1, j - 1) + w + 1 == i + j * w
  {
    RowMajorValue(w, i - 1, j - 1);
    assert (j - 1) * w + w == j * w;
  }

  /** An interior grid node is located at the far corner (1, 1) of the cell below and left of it. */
  lemma {:induction false} LocateNode(b: Bicubic, i: nat, j: nat)
    requires b.Valid()
    requires 0 < i < |b.x| - 1 && 0 < j < |b.y| - 1
    ensures b.Locate(b.x[i], b.y[j]) == Some(Located(b.PatchOf(i - 1, j - 1), 1.0, 1.0))
  {
    LineCell(b.x, i);
    LineCell(b.y, j);
    NormaliseAtLine(b.x, i - 1);
    NormaliseAtLine(b.y, j - 1);
  }

  /** The patch of cell (i - 1, j - 1) takes, at its upper-right corner, the value at node (i, j). */
  lemma {:induction false} CellUpperCorner(x: seq<real>, y: seq<real>, f: seq<real>, fx: seq<real>, fy: seq<real>, fxy: seq<real>,
                                           i: nat, j: nat)
    requires GridData(x, y, f, fx, fy, fxy)
    requires 0 < i < |x| && 0 < j < |y|
    ensures i + j * |x| < |f|
    ensures CellPatch(x, y, f, fx, fy, fxy, i - 1, j - 1).Sample(1.0, 1.0) == f[i + j * |x|]
  {
    CornerInRange(|x|, |y|, i - 1, j - 1);
    UpperCorner(|x|, i, j);
    var k := RowMajor(|x|, i - 1, j - 1);
    FromDataCornerValues(Width(x, i - 1), Width(y, j - 1),
                         CornerQuad(f, k, |x|), CornerQuad(fx, k, |x|), CornerQuad(fy, k, |x|), CornerQuad(fxy, k, |x|));
  }

  /** The stored patch of cell (i - 1, j - 1) takes, at its upper-right corner, the value at node (i, j). */
  lemma {:induction false} StoredUpperCorner(b: Bicubic, f: seq<real>, fx: seq<real>, fy: seq<real>, fxy: seq<real>, i: nat, j: nat)
    requires BuiltFrom(b, f, fx, fy, fxy)
    requires 0 < i < |b.x| && 0 < j < |b.y|
    ensures i + j * |b.x| < |f|
    ensures b.PatchOf(i - 1, j - 1).Sample(1.0, 1.0) == f[i + j * |b.x|]
  {
    PatchAt(b, f, fx, fy, fxy, i - 1, j - 1);
    CellUpperCorner(b.x, b.y, f, fx, fy, fxy, i, j);
  }

  /**
   * At every interior grid node the interpolator returns the value given for that node. (Nodes
   * on the outer grid lines count as outside and give 0.)
   */
  lemma {:induction false} NodeExact(b: Bicubic, f: seq<real>, fx: seq<real>, fy: seq<real>, fxy: seq<real>, i: nat, j: nat)
    requires BuiltFrom(b, f, fx, fy, fxy) && b.Valid()
    requires 0 < i < |b.x| - 1 && 0 < j < |b.y| - 1
    ensures i + j * |b.x| < |f|
    ensures b.Value(b.x[i], b.y[j]) == f[i + j * |b.x|]
  {
    LocateNode(b, i, j);
    StoredUpperCorner(b, f, fx, fy, fxy, i, j);
  }

  /**
   * Two horizontally neighbouring patches agree on their shared edge x = x[i]: the left one at
   * local x = 1 and the right one at local x = 0 give the same value at every height t.
   */
  lemma {:induction false} ContinuousAcrossX(b: Bicubic, f: seq<real>, fx: seq<real>, fy: seq<real>, fxy: seq<real>, i: nat, yi: nat, t: real)
    requires BuiltFrom(b, f, fx, fy, fxy)
    requires 0 < i < |b.x| - 1 && yi + 1 < |b.y|
    ensures b.PatchOf(i - 1, yi).Sample(1.0, t) == b.PatchOf(i, yi).Sample(0.0, t)
  {
    var x, y := b.x, b.y;
    CornerInRange(|x|, |y|, i, yi);
    RowMajorInRow(|x|, i - 1, yi);
    RowMajorInRow(|x|, i, yi);
    PatchAt(b, f, fx, fy, fxy, i - 1, yi);
    PatchAt(b, f, fx, fy, fxy, i, yi);
    var k0, k1 := RowMajor(|x|, i - 1, yi), RowMajor(|x|, i, yi);
    SharedEdgeX(Width(x, i - 1), Width(x, i), Width(y, yi),
                CornerQuad(f, k0, |x|), CornerQuad(fx, k0, |x|), CornerQuad(fy, k0, |x|), CornerQuad(fxy, k0, |x|),
                CornerQuad(f, k1, |x|), CornerQuad(fx, k1, |x|), CornerQuad(fy, k1, |x|), CornerQuad(fxy, k1, |x|), t);
  }

  /**
   * Two vertically neighbouring patches agree on their shared edge y = y[j]: the lower one at
   * local y = 1 and the upper one at local y = 0 give the same value all along it.
   */
  lemma {:induction false} ContinuousAcrossY(b: Bicubic, f: seq<real>, fx: seq<real>, fy: seq<real>, fxy: seq<real>, xi: nat, j: nat, t: real)
    requires BuiltFrom(b, f, fx, fy, fxy)
    requires xi + 1 < |b.x| && 0 < j < |b.y| - 1
    ensures b.PatchOf(xi, j - 1).Sample(t, 1.0) == b.PatchOf(xi, j).Sample(t, 0.0)
  {
    var x, y := b.x, b.y;
    CornerInRange(|x|, |y|, xi, j);
    PatchAt(b, f, fx, fy, fxy, xi, j - 1);
    PatchAt(b, f, fx, fy, fxy, xi, j);
    var k0, k1 := RowMajor(|x|, xi, j - 1), RowMajor(|x|, xi, j);
    assert k1 == k0 + |x|;
    SharedEdgeY(Width(x, xi), Width(y, j - 1), Width(y, j),
                CornerQuad(f, k0, |x|), CornerQuad(fx, k0, |x|), CornerQuad(fy, k0, |x|), CornerQuad(fxy, k0, |x|),
                CornerQuad(f, k1, |x|), CornerQuad(fx, k1, |x|), CornerQuad(fy, k1, |x|), CornerQuad(fxy, k1, |x|), t);
  }

  /**
   * Two horizontally neighbouring patches also agree on the y-derivative along their shared edge
   * x = x[i]: the surface's slope along the grid line is the same from either side.
   */
  lemma {:induction false} EdgeTangentAcrossX(b: Bicubic, f: seq<real>, fx: seq<real>, fy: seq<real>, fxy: seq<real>, i: nat, yi: nat, t: real)
    requires BuiltFrom(b, f, fx, fy, fxy)
    requires 0 < i < |b.x| - 1 && yi + 1 < |b.y|
    ensures b.PatchOf(i - 1, yi).Dy(1.0, t) == b.PatchOf(i, yi).Dy(0.0, t)
  {
    var x, y := b.x, b.y;
    CornerInRange(|x|, |y|, i, yi);
    RowMajorInRow(|x|, i - 1, yi);
    RowMajorInRow(|x|, i, yi);
    PatchAt(b, f, fx, fy, fxy, i - 1, yi);
    PatchAt(b, f, fx, fy, fxy, i, yi);
    var k0, k1 := RowMajor(|x|, i - 1, yi), RowMajor(|x|, i, yi);
    TangentAcrossX(Width(x, i - 1), Width(x, i), Width(y, yi),
                   CornerQuad(f, k0, |x|), CornerQuad(fx, k0, |x|), CornerQuad(fy, k0, |x|), CornerQuad(fxy, k0, |x|),
                   CornerQuad(f, k1, |x|), CornerQuad(fx, k1, |x|), CornerQuad(fy, k1, |x|), CornerQuad(fxy, k1, |x|), t);
  }

  /**
   * Two vertically neighbouring patches also agree on the x-derivative along their shared edge
   * y = y[j].
   */
  lemma {:induction false} EdgeTangentAcrossY(b: Bicubic, f: seq<real>, fx: seq<real>, fy: seq<real>, fxy: seq<real>, xi: nat, j: nat, t: real)
    requires BuiltFrom(b, f, fx, fy, fxy)
    requires xi + 1 < |b.x| && 0 < j < |b.y| - 1
    ensures b.PatchOf(xi, j - 1).Dx(t, 1.0) == b.PatchOf(xi, j).Dx(t, 0.0)
  {
    var x, y := b.x, b.y;
    CornerInRange(|x|, |y|, xi, j);
    PatchAt(b, f, fx, fy, fxy, xi, j - 1);
    PatchAt(b, f, fx, fy, fxy, xi, j);
    var k0, k1 := RowMajor(|x|, xi, j - 1), RowMajor(|x|, xi, j);
    assert k1 == k0 + |x|;
    TangentAcrossY(Width(x, xi), Width(y, j - 1), Width(y, j),
                   CornerQuad(f, k0, |x|), CornerQuad(fx, k0, |x|), CornerQuad(fy, k0, |x|), CornerQuad(fxy, k0, |x|),
                   CornerQuad(f, k1, |x|), CornerQuad(fx, k1, |x|), CornerQuad(fy, k1, |x|), CornerQuad(fxy, k1, |x|), t);
  }

  /**
   * On an ascending x axis the x-slope in physical units (local slope divided by the cell width)
   * is continuous across a shared vertical edge: the surface is smooth in x there.
   */
  lemma {:induction false} SmoothAcrossX(b: Bicubic, f: seq<real>, fx: seq<real>, fy: seq<real>, fxy: seq<real>, i: nat, yi: nat, t: real)
    requires BuiltFrom(b, f, fx, fy, fxy) && StrictlyAscending(b.x)
    requires 0 < i < |b.x| - 1 && yi + 1 < |b.y|
    ensures b.PatchOf(i - 1, yi).Dx(1.0, t) / Width(b.x, i - 1) == b.PatchOf(i, yi).Dx(0.0, t) / Width(b.x, i)
  {
    var x, y := b.x, b.y;
    CornerInRange(|x|, |y|, i, yi);
    RowMajorInRow(|x|, i - 1, yi);
    RowMajorInRow(|x|, i, yi);
    PatchAt(b, f, fx, fy, fxy, i - 1, yi);
    PatchAt(b, f, fx, fy, fxy, i, yi);
    var k0, k1 := RowMajor(|x|, i - 1, yi), RowMajor(|x|, i, yi);
    MatchedSlopeX(Width(x, i - 1), Width(x, i), Width(y, yi),
                  CornerQuad(f, k0, |x|), CornerQuad(fx, k0, |x|), CornerQuad(fy, k0, |x|), CornerQuad(fxy, k0, |x|),
                  CornerQuad(f, k1, |x|), CornerQuad(fx, k1, |x|), CornerQuad(fy, k1, |x|), CornerQuad(fxy, k1, |x|), t);
  }

  /**
   * On an ascending y axis the y-slope in physical units is continuous across a shared
   * horizontal edge: the surface is smooth in y there.
   */
  lemma {:induction false} SmoothAcrossY(b: Bicubic, f: seq<real>, fx: seq<real>, fy: seq<real>, fxy: seq<real>, xi: nat, j: nat, t: real)
    requires BuiltFrom(b, f, fx, fy, fxy) && StrictlyAscending(b.y)
    requires xi + 1 < |b.x| && 0 < j < |b.y| - 1
    ensures b.PatchOf(xi, j - 1).Dy(t, 1.0) / Width(b.y, j - 1) == b.PatchOf(xi, j).Dy(t, 0.0) / Width(b.y, j)
  {
    var x, y := b.x, b.y;
    CornerInRange(|x|, |y|, xi, j);
    PatchAt(b, f, fx, fy, fxy, xi, j - 1);
    PatchAt(b, f, fx, fy, fxy, xi, j);
    var k0, k1 := RowMajor(|x|, xi, j - 1), RowMajor(|x|, xi, j);
    assert k1 == k0 + |x|;
    MatchedSlopeY(Width(x, xi), Width(y, j - 1), Width(y, j),
                  CornerQuad(f, k0, |x|), CornerQuad(fx, k0, |x|), CornerQuad(fy, k0, |x|), CornerQuad(fxy, k0, |x|),
                  CornerQuad(f, k1, |x|), CornerQuad(fx, k1, |x|), CornerQuad(fy, k1, |x|), CornerQuad(fxy, k1, |x|), t);
  }

  /** All node values and derivatives are zero. */
  predicate ZeroNodes(f: seq<real>, fx: seq<real>, fy: seq<real>, fxy: seq<real>)
    requires |fx| == |f| && |fy| == |f| && |fxy| == |f|
  {
    forall k :: 0 <= k < |f| ==> f[k] == 0.0 && fx[k] == 0.0 && fy[k] == 0.0 && fxy[k] == 0.0
  }

  /** With all-zero node data the interpolator is 0 everywhere (the documentation example, src/lib.rs:6-11). */
  lemma {:induction false} ZeroSurface(b: Bicubic, f: seq<real>, fx: seq<real>, fy: seq<real>, fxy: seq<real>, qx: real, qy: real)
    requires BuiltFrom(b, f, fx, fy, fxy) && ZeroNodes(f, fx, fy, fxy)
    ensures b.Value(qx, qy) == 0.0
  {
    var x, y := b.x, b.y;
    if !b.Outside(qx, qy) {
      var xi, yi := CellIndex(x, qx), CellIndex(y, qy);
      CornerInRange(|x|, |y|, xi, yi);
      PatchAt(b, f, fx, fy, fxy, xi, yi);
      var k := RowMajor(|x|, xi, yi);
      var z := Quad(0.0, 0.0, 0.0, 0.0);
      assert CornerQuad(f, k, |x|) == z && CornerQuad(fx, k, |x|) == z;
      assert CornerQuad(fy, k, |x|) == z && CornerQuad(fxy, k, |x|) == z;
      ZeroData(Width(x, xi), Width(y, yi), Normalise(x, xi, qx), Normalise(y, yi, qy));
    }
  }
}
