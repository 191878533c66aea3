/**
 * One grid cell's bicubic polynomial on the unit square (src/patch.rs).
 *
 * Corner data always comes in the order (x=0, y=0), (1, 0), (0, 1), (1, 1).
 */
module BicubicPatch {
  import opened CubicHermite

  /**
   * A value, or a derivative, at each of the four corners of a cell: c0 at (0, 0), c1 at (1, 0),
   * c2 at (0, 1) and c3 at (1, 1).
   */
  datatype Quad = Quad(c0: real, c1: real, c2: real, c3: real)

  /** The sixteen Hermite parameters of a cell: values, x-, y- and mixed derivatives per corner. */
  datatype Hermite = Hermite(f: Quad, fx: Quad, fy: Quad, fxy: Quad)

  /** The sixteen power-basis coefficients: the patch is the sum of aij * x^i * y^j. */
  datatype Patch = Patch(
    a00: real, a01: real, a02: real, a03: real,
    a10: real, a11: real, a12: real, a13: real,
    a20: real, a21: real, a22: real, a23: real,
    a30: real, a31: real, a32: real, a33: real)
  {
    /** Patch::sample: the polynomial at (x, y), as a cubic in x whose coefficients are cubics in y. */
    function Sample(x: real, y: real): real
    {
      Cubic(Cubic(a00, a01, a02, a03, y),
            Cubic(a10, a11, a12, a13, y),
            Cubic(a20, a21, a22, a23, y),
            Cubic(a30, a31, a32, a33, y), x)
    }

    /** The coefficients of the partial derivative with respect to x. */
    function DerivX(): Patch
    {
      Patch(a10, a11, a12, a13,
            2.0 * a20, 2.0 * a21, 2.0 * a22, 2.0 * a23,
            3.0 * a30, 3.0 * a31, 3.0 * a32, 3.0 * a33,
            0.0, 0.0, 0.0, 0.0)
    }

    /** The coefficients of the partial derivative with respect to y. */
    function DerivY(): Patch
    {
      Patch(a01, 2.0 * a02, 3.0 * a03, 0.0,
            a11, 2.0 * a12, 3.0 * a13, 0.0,
            a21, 2.0 * a22, 3.0 * a23, 0.0,
            a31, 2.0 * a32, 3.0 * a33, 0.0)
    }

    function Dx(x: real, y: real): real { DerivX().Sample(x, y) }

    function Dy(x: real, y: real): real { DerivY().Sample(x, y) }

    function Dxy(x: real, y: real): real { DerivX().DerivY().Sample(x, y) }

    /** The patch with the roles of x and y exchanged. */
    function Transposed(): Patch
    {
      Patch(a00, a10, a20, a30,
            a01, a11, a21, a31,
            a02, a12, a22, a32,
            a03, a13, a23, a33)
    }
  }

  /** The Hermite parameters a patch actually has at its corners. */
  function HermiteOf(p: Patch): Hermite
  {
    Hermite(Quad(p.Sample(0.0, 0.0), p.Sample(1.0, 0.0), p.Sample(0.0, 1.0), p.Sample(1.0, 1.0)),
            Quad(p.Dx(0.0, 0.0), p.Dx(1.0, 0.0), p.Dx(0.0, 1.0), p.Dx(1.0, 1.0)),
            Quad(p.Dy(0.0, 0.0), p.Dy(1.0, 0.0), p.Dy(0.0, 1.0), p.Dy(1.0, 1.0)),
            Quad(p.Dxy(0.0, 0.0), p.Dxy(1.0, 0.0), p.Dxy(0.0, 1.0), p.Dxy(1.0, 1.0)))
  }

  /** A corner quantity multiplied by k at every corner. */
  function Scale(k: real, q: Quad): Quad
  {
    Quad(k * q.c0, k * q.c1, k * q.c2, k * q.c3)
  }

  /**
   * The parameters of a cell in unit-square form: the physical derivatives rescaled by the cell
   * size (chain rule for x = x_min + x_delta * u, y = y_min + y_delta * v).
   */
  function UnitParams(xDelta: real, yDelta: real, f: Quad, fx: Quad, fy: Quad, fxy: Quad): Hermite
  {
    Hermite(f, Scale(xDelta, fx), Scale(yDelta, fy), Scale(xDelta * yDelta, fxy))
  }

  /**
   * The fixed Hermite-to-power-basis change of basis. The parameters are named p0 .. p15 in the
   * order values, x-derivatives, y-derivatives, mixed derivatives, each in corner order.
   */
  function PowerBasis(h: Hermite): Patch
  {
    var Quad(p0, p1, p2, p3) := h.f;
    var Quad(p4, p5, p6, p7) := h.fx;
    var Quad(p8, p9, p10, p11) := h.fy;
    var Quad(p12, p13, p14, p15) := h.fxy;
    Patch(
      p0,
      p8,
      -3.0 * p0 + 3.0 * p2 - 2.0 * p8 - p10,
      2.0 * p0 - 2.0 * p2 + p8 + p10,

      p4,
      p12,
      -3.0 * p4 + 3.0 * p6 - 2.0 * p12 - p14,
      2.0 * p4 - 2.0 * p6 + 1.0 * p12 + p14,

      -3.0 * p0 + 3.0 * p1 - 2.0 * p4 - p5,
      -3.0 * p8 + 3.0 * p9 - 2.0 * p12 - p13,
      9.0 * p0 - 9.0 * p1 - 9.0 * p2 + 9.0 * p3
      + 6.0 * p4 + 3.0 * p5 - 6.0 * p6 - 3.0 * p7
      + 6.0 * p8 - 6.0 * p9 + 3.0 * p10 - 3.0 * p11
      + 4.0 * p12 + 2.0 * p13 + 2.0 * p14 + p15,
      -6.0 * p0 + 6.0 * p1 + 6.0 * p2 - 6.0 * p3
      - 4.0 * p4 - 2.0 * p5 + 4.0 * p6 + 2.0 * p7
      - 3.0 * p8 + 3.0 * p9 - 3.0 * p10 + 3.0 * p11
      - 2.0 * p12 - p13 - 2.0 * p14 - p15,

      2.0 * p0 - 2.0 * p1 + p4 + p5,
      2.0 * p8 - 2.0 * p9 + p12 + p13,
      -6.0 * p0 + 6.0 * p1 + 6.0 * p2 - 6.0 * p3
      - 3.0 * p4 - 3.0 * p5 + 3.0 * p6 + 3.0 * p7
      - 4.0 * p8 + 4.0 * p9 - 2.0 * p10 + 2.0 * p11
      - 2.0 * p12 - 2.0 * p13 - p14 - p15,
      4.0 * p0 - 4.0 * p1 - 4.0 * p2 + 4.0 * p3
      + 2.0 * p4 + 2.0 * p5 - 2.0 * p6 - 2.0 * p7
      + 2.0 * p8 - 2.0 * p9 + 2.0 * p10 - 2.0 * p11
      + p12 + p13 + p14 + p15)
  }

  /** PowerBasis inverts HermiteOf: the patch it builds has exactly the Hermite parameters it was given. */
  lemma PowerBasisInterpolates(h: Hermite)
    ensures HermiteOf(PowerBasis(h)) == h
  {
  }

  /** Every bicubic is the PowerBasis image of its own corner data: the change of basis is a bijection. */
  lemma PowerBasisOfHermite(p: Patch)
    ensures PowerBasis(HermiteOf(p)) == p
  {
  }

  /** Patch::from_data: rescale the derivatives by the cell size, then change basis. */
  function FromData(xDelta: real, yDelta: real, f: Quad, fx: Quad, fy: Quad, fxy: Quad): Patch
  {
    PowerBasis(UnitParams(xDelta, yDelta, f, fx, fy, fxy))
  }

  /**
   * FromData is total, and the patch it builds has exactly the unit-square parameters of the cell
   * as its corner values and corner derivatives.
   */
  lemma {:induction false} FromDataInterpolates(xDelta: real, yDelta: real, f: Quad, fx: Quad, fy: Quad, fxy: Quad)
    ensures HermiteOf(FromData(xDelta, yDelta, f, fx, fy, fxy)) == UnitParams(xDelta, yDelta, f, fx, fy, fxy)
  {
    PowerBasisInterpolates(UnitParams(xDelta, yDelta, f, fx, fy, fxy));
  }

  /** The corner values of a patch built by FromData are the given values. */
  lemma {:induction false} FromDataCornerValues(xDelta: real, yDelta: real, f: Quad, fx: Quad, fy: Quad, fxy: Quad)
    ensures var r := FromData(xDelta, yDelta, f, fx, fy, fxy);
      && r.Sample(0.0, 0.0) == f.c0 && r.Sample(1.0, 0.0) == f.c1
      && r.Sample(0.0, 1.0) == f.c2 && r.Sample(1.0, 1.0) == f.c3
  {
    FromDataInterpolates(xDelta, yDelta, f, fx, fy, fxy);
  }

  /** The corner x-derivatives of a patch built by FromData are the given ones times x_delta. */
  lemma {:induction false} FromDataCornerDx(xDelta: real, yDelta: real, f: Quad, fx: Quad, fy: Quad, fxy: Quad)
    ensures var r := FromData(xDelta, yDelta, f, fx, fy, fxy);
      && r.Dx(0.0, 0.0) == xDelta * fx.c0 && r.Dx(1.0, 0.0) == xDelta * fx.c1
      && r.Dx(0.0, 1.0) == xDelta * fx.c2 && r.Dx(1.0, 1.0) == xDelta * fx.c3
  {
    FromDataInterpolates(xDelta, yDelta, f, fx, fy, fxy);
    ScaleCorners(xDelta, fx);
  }

  /** The corner y-derivatives of a patch built by FromData are the given ones times y_delta. */
  lemma {:induction false} FromDataCornerDy(xDelta: real, yDelta: real, f: Quad, fx: Quad, fy: Quad, fxy: Quad)
    ensures var r := FromData(xDelta, yDelta, f, fx, fy, fxy);
      && r.Dy(0.0, 0.0) == yDelta * fy.c0 && r.Dy(1.0, 0.0) == yDelta * fy.c1
      && r.Dy(0.0, 1.0) == yDelta * fy.c2 && r.Dy(1.0, 1.0) == yDelta * fy.c3
  {
    FromDataInterpolates(xDelta, yDelta, f, fx, fy, fxy);
    ScaleCorners(yDelta, fy);
  }

  /** The corner mixed derivatives of a patch built by FromData are the given ones scaled by x_delta * y_delta. */
  lemma {:induction false} FromDataCornerDxy(xDelta: real, yDelta: real, f: Quad, fx: Quad, fy: Quad, fxy: Quad)
    ensures var r, s := FromData(xDelta, yDelta, f, fx, fy, fxy), Scale(xDelta * yDelta, fxy);
      && r.Dxy(0.0, 0.0) == s.c0 && r.Dxy(1.0, 0.0) == s.c1
      && r.Dxy(0.0, 1.0) == s.c2 && r.Dxy(1.0, 1.0) == s.c3
  {
    FromDataInterpolates(xDelta, yDelta, f, fx, fy, fxy);
  }

  /** The corners of a scaled quantity. */
  lemma ScaleCorners(k: real, q: Quad)
    ensures Scale(k, q).c0 == k * q.c0 && Scale(k, q).c1 == k * q.c1
    ensures Scale(k, q).c2 == k * q.c2 && Scale(k, q).c3 == k * q.c3
  {
  }

  /*
   * A patch restricted to one edge of the unit square is a cubic in the other variable, whose
   * coefficients are sums of the patch's coefficients.
   */

  lemma {:induction false} OnLeftEdge(q: Patch, y: real)
    ensures q.Sample(0.0, y) == Cubic(q.a00, q.a01, q.a02, q.a03, y)
  {
    CubicAtZero(Cubic(q.a00, q.a01, q.a02, q.a03, y), Cubic(q.a10, q.a11, q.a12, q.a13, y),
                Cubic(q.a20, q.a21, q.a22, q.a23, y), Cubic(q.a30, q.a31, q.a32, q.a33, y));
  }

  lemma {:induction false} OnRightEdge(q: Patch, y: real)
    ensures q.Sample(1.0, y)
         == Cubic(q.a00 + q.a10 + q.a20 + q.a30, q.a01 + q.a11 + q.a21 + q.a31,
                  q.a02 + q.a12 + q.a22 + q.a32, q.a03 + q.a13 + q.a23 + q.a33, y)
  {
    CubicAtOne(Cubic(q.a00, q.a01, q.a02, q.a03, y), Cubic(q.a10, q.a11, q.a12, q.a13, y),
               Cubic(q.a20, q.a21, q.a22, q.a23, y), Cubic(q.a30, q.a31, q.a32, q.a33, y));
  }

  lemma {:induction false} OnBottomEdge(q: Patch, x: real)
    ensures q.Sample(x, 0.0) == Cubic(q.a00, q.a10, q.a20, q.a30, x)
  {
    CubicAtZero(q.a00, q.a01, q.a02, q.a03);
    CubicAtZero(q.a10, q.a11, q.a12, q.a13);
    CubicAtZero(q.a20, q.a21, q.a22, q.a23);
    CubicAtZero(q.a30, q.a31, q.a32, q.a33);
  }

  lemma {:induction false} OnTopEdge(q: Patch, x: real)
    ensures q.Sample(x, 1.0)
         == Cubic(q.a00 + q.a01 + q.a02 + q.a03, q.a10 + q.a11 + q.a12 + q.a13,
                  q.a20 + q.a21 + q.a22 + q.a23, q.a30 + q.a31 + q.a32 + q.a33, x)
  {
    CubicAtOne(q.a00, q.a01, q.a02, q.a03);
    CubicAtOne(q.a10, q.a11, q.a12, q.a13);
    CubicAtOne(q.a20, q.a21, q.a22, q.a23);
    CubicAtOne(q.a30, q.a31, q.a32, q.a33);
  }

  /** Any bicubic, restricted to x = 0, is the cubic Hermite interpolant of its own end data. */
  lemma {:induction false} LeftOf(q: Patch, t: real)
    ensures q.Sample(0.0, t) == Interp(q.Sample(0.0, 0.0), q.Sample(0.0, 1.0), q.Dy(0.0, 0.0), q.Dy(0.0, 1.0), t)
  {
    OnLeftEdge(q, t);
    OnLeftEdge(q, 0.0);
    OnLeftEdge(q, 1.0);
    OnLeftEdge(q.DerivY(), 0.0);
    OnLeftEdge(q.DerivY(), 1.0);
    SlopeIsCubic(q.a00, q.a01, q.a02, q.a03, 0.0);
    SlopeIsCubic(q.a00, q.a01, q.a02, q.a03, 1.0);
    CubicIsInterp(q.a00, q.a01, q.a02, q.a03, t);
  }

  /** Any bicubic, restricted to x = 1, is the cubic Hermite interpolant of its own end data. */
  lemma {:induction false} RightOf(q: Patch, t: real)
    ensures q.Sample(1.0, t) == Interp(q.Sample(1.0, 0.0), q.Sample(1.0, 1.0), q.Dy(1.0, 0.0), q.Dy(1.0, 1.0), t)
  {
    var c0, c1 := q.a00 + q.a10 + q.a20 + q.a30, q.a01 + q.a11 + q.a21 + q.a31;
    var c2, c3 := q.a02 + q.a12 + q.a22 + q.a32, q.a03 + q.a13 + q.a23 + q.a33;
    var d := q.DerivY();
    OnRightEdge(q, t);
    OnRightEdge(q, 0.0);
    OnRightEdge(q, 1.0);
    OnRightEdge(d, 0.0);
    OnRightEdge(d, 1.0);
    assert d.a00 + d.a10 + d.a20 + d.a30 == c1;
    assert d.a01 + d.a11 + d.a21 + d.a31 == 2.0 * c2;
    assert d.a02 + d.a12 + d.a22 + d.a32 == 3.0 * c3;
    assert d.a03 + d.a13 + d.a23 + d.a33 == 0.0;
    SlopeIsCubic(c0, c1, c2, c3, 0.0);
    SlopeIsCubic(c0, c1, c2, c3, 1.0);
    CubicIsInterp(c0, c1, c2, c3, t);
  }

  /** Any bicubic, restricted to y = 0, is the cubic Hermite interpolant of its own end data. */
  lemma {:induction false} BottomOf(q: Patch, t: real)
    ensures q.Sample(t, 0.0) == Interp(q.Sample(0.0, 0.0), q.Sample(1.0, 0.0), q.Dx(0.0, 0.0), q.Dx(1.0, 0.0), t)
  {
    OnBottomEdge(q, t);
    OnBottomEdge(q, 0.0);
    OnBottomEdge(q, 1.0);
    OnBottomEdge(q.DerivX(), 0.0);
    OnBottomEdge(q.DerivX(), 1.0);
    SlopeIsCubic(q.a00, q.a10, q.a20, q.a30, 0.0);
    SlopeIsCubic(q.a00, q.a10, q.a20, q.a30, 1.0);
    CubicIsInterp(q.a00, q.a10, q.a20, q.a30, t);
  }

  /** Any bicubic, restricted to y = 1, is the cubic Hermite interpolant of its own end data. */
  lemma {:induction false} TopOf(q: Patch, t: real)
    ensures q.Sample(t, 1.0) == Interp(q.Sample(0.0, 1.0), q.Sample(1.0, 1.0), q.Dx(0.0, 1.0), q.Dx(1.0, 1.0), t)
  {
    var c0, c1 := q.a00 + q.a01 + q.a02 + q.a03, q.a10 + q.a11 + q.a12 + q.a13;
    var c2, c3 := q.a20 + q.a21 + q.a22 + q.a23, q.a30 + q.a31 + q.a32 + q.a33;
    var d := q.DerivX();
    OnTopEdge(q, t);
    OnTopEdge(q, 0.0);
    OnTopEdge(q, 1.0);
    OnTopEdge(d, 0.0);
    OnTopEdge(d, 1.0);
    assert d.a00 + d.a01 + d.a02 + d.a03 == c1;
    assert d.a10 + d.a11 + d.a12 + d.a13 == 2.0 * c2;
    assert d.a20 + d.a21 + d.a22 + d.a23 == 3.0 * c3;
    assert d.a30 + d.a31 + d.a32 + d.a33 == 0.0;
    SlopeIsCubic(c0, c1, c2, c3, 0.0);
    SlopeIsCubic(c0, c1, c2, c3, 1.0);
    CubicIsInterp(c0, c1, c2, c3, t);
  }

  /*
   * The derivative along an edge: on x = 0 and x = 1 the y-derivative, on y = 0 and y = 1 the
   * x-derivative, is the slope of the same Hermite interpolant, so it too depends only on the
   * edge's own end data.
   */

  lemma {:induction false} TangentLeftOf(q: Patch, t: real)
    ensures q.Dy(0.0, t) == InterpSlope(q.Sample(0.0, 0.0), q.Sample(0.0, 1.0), q.Dy(0.0, 0.0), q.Dy(0.0, 1.0), t)
  {
    OnLeftEdge(q, 0.0);
    OnLeftEdge(q, 1.0);
    OnLeftEdge(q.DerivY(), t);
    OnLeftEdge(q.DerivY(), 0.0);
    OnLeftEdge(q.DerivY(), 1.0);
    SlopeIsCubic(q.a00, q.a01, q.a02, q.a03, t);
    SlopeIsCubic(q.a00, q.a01, q.a02, q.a03, 0.0);
    SlopeIsCubic(q.a00, q.a01, q.a02, q.a03, 1.0);
    CubicSlopeIsInterpSlope(q.a00, q.a01, q.a02, q.a03, t);
  }

  lemma {:induction false} TangentRightOf(q: Patch, t: real)
    ensures q.Dy(1.0, t) == InterpSlope(q.Sample(1.0, 0.0), q.Sample(1.0, 1.0), q.Dy(1.0, 0.0), q.Dy(1.0, 1.0), t)
  {
    var c0, c1 := q.a00 + q.a10 + q.a20 + q.a30, q.a01 + q.a11 + q.a21 + q.a31;
    var c2, c3 := q.a02 + q.a12 + q.a22 + q.a32, q.a03 + q.a13 + q.a23 + q.a33;
    var d := q.DerivY();
    OnRightEdge(q, 0.0);
    OnRightEdge(q, 1.0);
    OnRightEdge(d, t);
    OnRightEdge(d, 0.0);
    OnRightEdge(d, 1.0);
    assert d.a00 + d.a10 + d.a20 + d.a30 == c1;
    assert d.a01 + d.a11 + d.a21 + d.a31 == 2.0 * c2;
    assert d.a02 + d.a12 + d.a22 + d.a32 == 3.0 * c3;
    assert d.a03 + d.a13 + d.a23 + d.a33 == 0.0;
    SlopeIsCubic(c0, c1, c2, c3, t);
    SlopeIsCubic(c0, c1, c2, c3, 0.0);
    SlopeIsCubic(c0, c1, c2, c3, 1.0);
    CubicSlopeIsInterpSlope(c0, c1, c2, c3, t);
  }

  lemma {:induction false} TangentBottomOf(q: Patch, t: real)
    ensures q.Dx(t, 0.0) == InterpSlope(q.Sample(0.0, 0.0), q.Sample(1.0, 0.0), q.Dx(0.0, 0.0), q.Dx(1.0, 0.0), t)
  {
    OnBottomEdge(q, 0.0);
    OnBottomEdge(q, 1.0);
    OnBottomEdge(q.DerivX(), t);
    OnBottomEdge(q.DerivX(), 0.0);
    OnBottomEdge(q.DerivX(), 1.0);
    SlopeIsCubic(q.a00, q.a10, q.a20, q.a30, t);
    SlopeIsCubic(q.a00, q.a10, q.a20, q.a30, 0.0);
    SlopeIsCubic(q.a00, q.a10, q.a20, q.a30, 1.0);
    CubicSlopeIsInterpSlope(q.a00, q.a10, q.a20, q.a30, t);
  }

  lemma {:induction false} TangentTopOf(q: Patch, t: real)
    ensures q.Dx(t, 1.0) == InterpSlope(q.Sample(0.0, 1.0), q.Sample(1.0, 1.0), q.Dx(0.0, 1.0), q.Dx(1.0, 1.0), t)
  {
    var c0, c1 := q.a00 + q.a01 + q.a02 + q.a03, q.a10 + q.a11 + q.a12 + q.a13;
    var c2, c3 := q.a20 + q.a21 + q.a22 + q.a23, q.a30 + q.a31 + q.a32 + q.a33;
    var d := q.DerivX();
    OnTopEdge(q, 0.0);
    OnTopEdge(q, 1.0);
    OnTopEdge(d, t);
    OnTopEdge(d, 0.0);
    OnTopEdge(d, 1.0);
    assert d.a00 + d.a01 + d.a02 + d.a03 == c1;
    assert d.a10 + d.a11 + d.a12 + d.a13 == 2.0 * c2;
    assert d.a20 + d.a21 + d.a22 + d.a23 == 3.0 * c3;
    assert d.a30 + d.a31 + d.a32 + d.a33 == 0.0;
    SlopeIsCubic(c0, c1, c2, c3, t);
    SlopeIsCubic(c0, c1, c2, c3, 0.0);
    SlopeIsCubic(c0, c1, c2, c3, 1.0);
    CubicSlopeIsInterpSlope(c0, c1, c2, c3, t);
  }

  /** Along y = 0 the patch is the cubic Hermite interpolant of the data at corners 0 and 1. */
  lemma {:induction false} EdgeBottom(h: Hermite, t: real)
    ensures PowerBasis(h).Sample(t, 0.0) == Interp(h.f.c0, h.f.c1, h.fx.c0, h.fx.c1, t)
  {
    PowerBasisInterpolates(h);
    BottomOf(PowerBasis(h), t);
  }

  /** Along y = 1 the patch is the cubic Hermite interpolant of the data at corners 2 and 3. */
  lemma {:induction false} EdgeTop(h: Hermite, t: real)
    ensures PowerBasis(h).Sample(t, 1.0) == Interp(h.f.c2, h.f.c3, h.fx.c2, h.fx.c3, t)
  {
    PowerBasisInterpolates(h);
    TopOf(PowerBasis(h), t);
  }

  /** Along x = 0 the patch is the cubic Hermite interpolant of the data at corners 0 and 2. */
  lemma {:induction false} EdgeLeft(h: Hermite, t: real)
    ensures PowerBasis(h).Sample(0.0, t) == Interp(h.f.c0, h.f.c2, h.fy.c0, h.fy.c2, t)
  {
    PowerBasisInterpolates(h);
    LeftOf(PowerBasis(h), t);
  }

  /** Along x = 1 the patch is the cubic Hermite interpolant of the data at corners 1 and 3. */
  lemma {:induction false} EdgeRight(h: Hermite, t: real)
    ensures PowerBasis(h).Sample(1.0, t) == Interp(h.f.c1, h.f.c3, h.fy.c1, h.fy.c3, t)
  {
    PowerBasisInterpolates(h);
    RightOf(PowerBasis(h), t);
  }

  /** The two derivative operators commute: the mixed derivative can be taken in either order. */
  lemma DerivCommute(p: Patch)
    ensures p.DerivX().DerivY() == p.DerivY().DerivX()
  {
  }

  /** The x-derivative across the edges x = 0 and x = 1 depends only on that edge's corners. */
  lemma {:induction false} SlopeAcrossLeftRight(h: Hermite, t: real)
    ensures PowerBasis(h).Dx(0.0, t) == Interp(h.fx.c0, h.fx.c2, h.fxy.c0, h.fxy.c2, t)
    ensures PowerBasis(h).Dx(1.0, t) == Interp(h.fx.c1, h.fx.c3, h.fxy.c1, h.fxy.c3, t)
  {
    var q := PowerBasis(h).DerivX();
    PowerBasisInterpolates(h);
    LeftOf(q, t);
    RightOf(q, t);
  }

  /** The y-derivative across the edges y = 0 and y = 1 depends only on that edge's corners. */
  lemma {:induction false} SlopeAcrossBottomTop(h: Hermite, t: real)
    ensures PowerBasis(h).Dy(t, 0.0) == Interp(h.fy.c0, h.fy.c1, h.fxy.c0, h.fxy.c1, t)
    ensures PowerBasis(h).Dy(t, 1.0) == Interp(h.fy.c2, h.fy.c3, h.fxy.c2, h.fxy.c3, t)
  {
    var q := PowerBasis(h).DerivY();
    PowerBasisInterpolates(h);
    DerivCommute(PowerBasis(h));
    BottomOf(q, t);
    TopOf(q, t);
  }

  /** The x-derivative of a patch is the derivative of its cubic in x. */
  lemma {:induction false} RowSlopesInX(p: Patch, x: real, y: real)
    ensures p.Dx(x, y)
         == CubicSlope(Cubic(p.a00, p.a01, p.a02, p.a03, y), Cubic(p.a10, p.a11, p.a12, p.a13, y),
                       Cubic(p.a20, p.a21, p.a22, p.a23, y), Cubic(p.a30, p.a31, p.a32, p.a33, y), x)
  {
    CubicScale(2.0, p.a20, p.a21, p.a22, p.a23, y);
    CubicScale(3.0, p.a30, p.a31, p.a32, p.a33, y);
    CubicScale(0.0, p.a30, p.a31, p.a32, p.a33, y);
    SlopeIsCubic(Cubic(p.a00, p.a01, p.a02, p.a03, y), Cubic(p.a10, p.a11, p.a12, p.a13, y),
                 Cubic(p.a20, p.a21, p.a22, p.a23, y), Cubic(p.a30, p.a31, p.a32, p.a33, y), x);
  }

  /**
   * Any bicubic, at every height y, is the cubic Hermite interpolant in x of its values and
   * x-derivatives on the edges x = 0 and x = 1 at that height.
   */
  lemma {:induction false} AcrossX(q: Patch, x: real, y: real)
    ensures q.Sample(x, y) == Interp(q.Sample(0.0, y), q.Sample(1.0, y), q.Dx(0.0, y), q.Dx(1.0, y), x)
  {
    RowSlopesInX(q, 0.0, y);
    RowSlopesInX(q, 1.0, y);
    CubicIsInterp(Cubic(q.a00, q.a01, q.a02, q.a03, y), Cubic(q.a10, q.a11, q.a12, q.a13, y),
                  Cubic(q.a20, q.a21, q.a22, q.a23, y), Cubic(q.a30, q.a31, q.a32, q.a33, y), x);
  }

  /**
   * The bicubic Hermite patch as a tensor product: at height y it is the cubic Hermite
   * interpolant in x of the edge values and edge slopes at that height, which are in turn
   * Hermite interpolants in y of the corner data.
   */
  function TensorHermite(h: Hermite, x: real, y: real): real
  {
    Interp(Interp(h.f.c0, h.f.c2, h.fy.c0, h.fy.c2, y),
           Interp(h.f.c1, h.f.c3, h.fy.c1, h.fy.c3, y),
           Interp(h.fx.c0, h.fx.c2, h.fxy.c0, h.fxy.c2, y),
           Interp(h.fx.c1, h.fx.c3, h.fxy.c1, h.fxy.c3, y),
           x)
  }

  /** The power-basis patch is the tensor-product Hermite interpolant everywhere. */
  lemma {:induction false} PowerBasisIsTensorHermite(h: Hermite, x: real, y: real)
    ensures PowerBasis(h).Sample(x, y) == TensorHermite(h, x, y)
  {
    AcrossX(PowerBasis(h), x, y);
    EdgeLeft(h, y);
    EdgeRight(h, y);
    SlopeAcrossLeftRight(h, y);
  }

  /*
   * Along each edge a patch built by FromData depends only on the data of that edge's two corners
   * and on the cell size along the edge. This is what makes neighbouring patches agree on the
   * edge they share.
   */

  /** Along y = 0: the interpolant of f and x_delta * fx at corners 0 and 1. */
  lemma {:induction false} FromDataBottom(xDelta: real, yDelta: real, f: Quad, fx: Quad, fy: Quad, fxy: Quad, t: real)
    ensures FromData(xDelta, yDelta, f, fx, fy, fxy).Sample(t, 0.0) == Interp(f.c0, f.c1, xDelta * fx.c0, xDelta * fx.c1, t)
  {
    ScaleCorners(xDelta, fx);
    EdgeBottom(UnitParams(xDelta, yDelta, f, fx, fy, fxy), t);
  }

  /** Along y = 1: the interpolant of f and x_delta * fx at corners 2 and 3. */
  lemma {:induction false} FromDataTop(xDelta: real, yDelta: real, f: Quad, fx: Quad, fy: Quad, fxy: Quad, t: real)
    ensures FromData(xDelta, yDelta, f, fx, fy, fxy).Sample(t, 1.0) == Interp(f.c2, f.c3, xDelta * fx.c2, xDelta * fx.c3, t)
  {
    ScaleCorners(xDelta, fx);
    EdgeTop(UnitParams(xDelta, yDelta, f, fx, fy, fxy), t);
  }

  /** Along x = 0: the interpolant of f and y_delta * fy at corners 0 and 2. */
  lemma {:induction false} FromDataLeft(xDelta: real, yDelta: real, f: Quad, fx: Quad, fy: Quad, fxy: Quad, t: real)
    ensures FromData(xDelta, yDelta, f, fx, fy, fxy).Sample(0.0, t) == Interp(f.c0, f.c2, yDelta * fy.c0, yDelta * fy.c2, t)
  {
    ScaleCorners(yDelta, fy);
    EdgeLeft(UnitParams(xDelta, yDelta, f, fx, fy, fxy), t);
  }

  /** Along x = 1: the interpolant of f and y_delta * fy at corners 1 and 3. */
  lemma {:induction false} FromDataRight(xDelta: real, yDelta: real, f: Quad, fx: Quad, fy: Quad, fxy: Quad, t: real)
    ensures FromData(xDelta, yDelta, f, fx, fy, fxy).Sample(1.0, t) == Interp(f.c1, f.c3, yDelta * fy.c1, yDelta * fy.c3, t)
  {
    ScaleCorners(yDelta, fy);
    EdgeRight(UnitParams(xDelta, yDelta, f, fx, fy, fxy), t);
  }

  /** The y-derivative along x = 0 and x = 1: the interpolant's slope from that edge's f and y_delta * fy. */
  lemma {:induction false} FromDataTangentLeftRight(xDelta: real, yDelta: real, f: Quad, fx: Quad, fy: Quad, fxy: Quad, t: real)
    ensures FromData(xDelta, yDelta, f, fx, fy, fxy).Dy(0.0, t) == InterpSlope(f.c0, f.c2, yDelta * fy.c0, yDelta * fy.c2, t)
    ensures FromData(xDelta, yDelta, f, fx, fy, fxy).Dy(1.0, t) == InterpSlope(f.c1, f.c3, yDelta * fy.c1, yDelta * fy.c3, t)
  {
    var h := UnitParams(xDelta, yDelta, f, fx, fy, fxy);
    ScaleCorners(yDelta, fy);
    PowerBasisInterpolates(h);
    TangentLeftOf(PowerBasis(h), t);
    TangentRightOf(PowerBasis(h), t);
  }

  /** The x-derivative along y = 0 and y = 1: the interpolant's slope from that edge's f and x_delta * fx. */
  lemma {:induction false} FromDataTangentBottomTop(xDelta: real, yDelta: real, f: Quad, fx: Quad, fy: Quad, fxy: Quad, t: real)
    ensures FromData(xDelta, yDelta, f, fx, fy, fxy).Dx(t, 0.0) == InterpSlope(f.c0, f.c1, xDelta * fx.c0, xDelta * fx.c1, t)
    ensures FromData(xDelta, yDelta, f, fx, fy, fxy).Dx(t, 1.0) == InterpSlope(f.c2, f.c3, xDelta * fx.c2, xDelta * fx.c3, t)
  {
    var h := UnitParams(xDelta, yDelta, f, fx, fy, fxy);
    ScaleCorners(xDelta, fx);
    PowerBasisInterpolates(h);
    TangentBottomOf(PowerBasis(h), t);
    TangentTopOf(PowerBasis(h), t);
  }

  /** Products of three reals regroup freely. */
  lemma Regroup(a: real, b: real, c: real)
    ensures (a * b) * c == a * (b * c) == b * (a * c)
  {
  }

  /** The rescaled slope data across x = 0 is x_delta times the physical slope data. */
  lemma {:induction false} ScaleOutLeftEdge(xDelta: real, yDelta: real, fx: Quad, fxy: Quad, t: real)
    ensures Interp(Scale(xDelta, fx).c0, Scale(xDelta, fx).c2, Scale(xDelta * yDelta, fxy).c0, Scale(xDelta * yDelta, fxy).c2, t)
         == xDelta * Interp(fx.c0, fx.c2, yDelta * fxy.c0, yDelta * fxy.c2, t)
  {
    ScaleCorners(xDelta, fx);
    ScaleCorners(xDelta * yDelta, fxy);
    Regroup(xDelta, yDelta, fxy.c0);
    Regroup(xDelta, yDelta, fxy.c2);
    InterpScale(xDelta, fx.c0, fx.c2, yDelta * fxy.c0, yDelta * fxy.c2, t);
  }

  /** The rescaled slope data across x = 1 is x_delta times the physical slope data. */
  lemma {:induction false} ScaleOutRightEdge(xDelta: real, yDelta: real, fx: Quad, fxy: Quad, t: real)
    ensures Interp(Scale(xDelta, fx).c1, Scale(xDelta, fx).c3, Scale(xDelta * yDelta, fxy).c1, Scale(xDelta * yDelta, fxy).c3, t)
         == xDelta * Interp(fx.c1, fx.c3, yDelta * fxy.c1, yDelta * fxy.c3, t)
  {
    ScaleCorners(xDelta, fx);
    ScaleCorners(xDelta * yDelta, fxy);
    Regroup(xDelta, yDelta, fxy.c1);
    Regroup(xDelta, yDelta, fxy.c3);
    InterpScale(xDelta, fx.c1, fx.c3, yDelta * fxy.c1, yDelta * fxy.c3, t);
  }

  /** The rescaled slope data across y = 0 is y_delta times the physical slope data. */
  lemma {:induction false} ScaleOutBottomEdge(xDelta: real, yDelta: real, fy: Quad, fxy: Quad, t: real)
    ensures Interp(Scale(yDelta, fy).c0, Scale(yDelta, fy).c1, Scale(xDelta * yDelta, fxy).c0, Scale(xDelta * yDelta, fxy).c1, t)
         == yDelta * Interp(fy.c0, fy.c1, xDelta * fxy.c0, xDelta * fxy.c1, t)
  {
    ScaleCorners(yDelta, fy);
    ScaleCorners(xDelta * yDelta, fxy);
    Regroup(xDelta, yDelta, fxy.c0);
    Regroup(xDelta, yDelta, fxy.c1);
    InterpScale(yDelta, fy.c0, fy.c1, xDelta * fxy.c0, xDelta * fxy.c1, t);
  }

  /** The rescaled slope data across y = 1 is y_delta times the physical slope data. */
  lemma {:induction false} ScaleOutTopEdge(xDelta: real, yDelta: real, fy: Quad, fxy: Quad, t: real)
    ensures Interp(Scale(yDelta, fy).c2, Scale(yDelta, fy).c3, Scale(xDelta * yDelta, fxy).c2, Scale(xDelta * yDelta, fxy).c3, t)
         == yDelta * Interp(fy.c2, fy.c3, xDelta * fxy.c2, xDelta * fxy.c3, t)
  {
    ScaleCorners(yDelta, fy);
    ScaleCorners(xDelta * yDelta, fxy);
    Regroup(xDelta, yDelta, fxy.c2);
    Regroup(xDelta, yDelta, fxy.c3);
    InterpScale(yDelta, fy.c2, fy.c3, xDelta * fxy.c2, xDelta * fxy.c3, t);
  }

  /** Across x = 0: x_delta times the interpolant of fx and y_delta * fxy at corners 0 and 2. */
  lemma {:induction false} FromDataSlopeLeft(xDelta: real, yDelta: real, f: Quad, fx: Quad, fy: Quad, fxy: Quad, t: real)
    ensures FromData(xDelta, yDelta, f, fx, fy, fxy).Dx(0.0, t) == xDelta * Interp(fx.c0, fx.c2, yDelta * fxy.c0, yDelta * fxy.c2, t)
  {
    var h := UnitParams(xDelta, yDelta, f, fx, fy, fxy);
    ScaleOutLeftEdge(xDelta, yDelta, fx, fxy, t);
    SlopeAcrossLeftRight(h, t);
  }

  /** Across x = 1: x_delta times the interpolant of fx and y_delta * fxy at corners 1 and 3. */
  lemma {:induction false} FromDataSlopeRight(xDelta: real, yDelta: real, f: Quad, fx: Quad, fy: Quad, fxy: Quad, t: real)
    ensures FromData(xDelta, yDelta, f, fx, fy, fxy).Dx(1.0, t) == xDelta * Interp(fx.c1, fx.c3, yDelta * fxy.c1, yDelta * fxy.c3, t)
  {
    var h := UnitParams(xDelta, yDelta, f, fx, fy, fxy);
    ScaleOutRightEdge(xDelta, yDelta, fx, fxy, t);
    SlopeAcrossLeftRight(h, t);
  }

  /** Across y = 0: y_delta times the interpolant of fy and x_delta * fxy at corners 0 and 1. */
  lemma {:induction false} FromDataSlopeBottom(xDelta: real, yDelta: real, f: Quad, fx: Quad, fy: Quad, fxy: Quad, t: real)
    ensures FromData(xDelta, yDelta, f, fx, fy, fxy).Dy(t, 0.0) == yDelta * Interp(fy.c0, fy.c1, xDelta * fxy.c0, xDelta * fxy.c1, t)
  {
    var h := UnitParams(xDelta, yDelta, f, fx, fy, fxy);
    ScaleOutBottomEdge(xDelta, yDelta, fy, fxy, t);
    SlopeAcrossBottomTop(h, t);
  }

  /** Across y = 1: y_delta times the interpolant of fy and x_delta * fxy at corners 2 and 3. */
  lemma {:induction false} FromDataSlopeTop(xDelta: real, yDelta: real, f: Quad, fx: Quad, fy: Quad, fxy: Quad, t: real)
    ensures FromData(xDelta, yDelta, f, fx, fy, fxy).Dy(t, 1.0) == yDelta * Interp(fy.c2, fy.c3, xDelta * fxy.c2, xDelta * fxy.c3, t)
  {
    var h := UnitParams(xDelta, yDelta, f, fx, fy, fxy);
    ScaleOutTopEdge(xDelta, yDelta, fy, fxy, t);
    SlopeAcrossBottomTop(h, t);
  }

  /** All-zero corner data gives all-zero coefficients, whatever the cell size. */
  lemma ZeroCoefficients(xDelta: real, yDelta: real)
    ensures FromData(xDelta, yDelta, Quad(0.0, 0.0, 0.0, 0.0), Quad(0.0, 0.0, 0.0, 0.0), Quad(0.0, 0.0, 0.0, 0.0), Quad(0.0, 0.0, 0.0, 0.0))
         == Patch(0.0, 0.0, 0.0, 0.0, 0.0, 0.0, 0.0, 0.0, 0.0, 0.0, 0.0, 0.0, 0.0, 0.0, 0.0, 0.0)
  {
    var z := Quad(0.0, 0.0, 0.0, 0.0);
    assert UnitParams(xDelta, yDelta, z, z, z, z) == Hermite(z, z, z, z);
  }

  /** The all-zero patch is zero everywhere. */
  lemma ZeroPatch(x: real, y: real)
    ensures Patch(0.0, 0.0, 0.0, 0.0, 0.0, 0.0, 0.0, 0.0, 0.0, 0.0, 0.0, 0.0, 0.0, 0.0, 0.0, 0.0).Sample(x, y) == 0.0
  {
  }

  /** All-zero corner data gives a patch that samples to zero everywhere. */
  lemma {:induction false} ZeroData(xDelta: real, yDelta: real, x: real, y: real)
    ensures FromData(xDelta, yDelta, Quad(0.0, 0.0, 0.0, 0.0), Quad(0.0, 0.0, 0.0, 0.0), Quad(0.0, 0.0, 0.0, 0.0), Quad(0.0, 0.0, 0.0, 0.0)).Sample(x, y) == 0.0
  {
    ZeroCoefficients(xDelta, yDelta);
    ZeroPatch(x, y);
  }

  /**
   * Dx is the partial derivative in x: the patch moved by e in x is its exact Taylor expansion,
   * whose linear term is e * Dx.
   */
  lemma {:induction false} DxIsDerivative(p: Patch, x: real, y: real, e: real)
    ensures p.Sample(x + e, y)
         == p.Sample(x, y) + e * p.Dx(x, y)
            + e * e * (Cubic(p.a20, p.a21, p.a22, p.a23, y) + 3.0 * Cubic(p.a30, p.a31, p.a32, p.a33, y) * x)
            + e * e * e * Cubic(p.a30, p.a31, p.a32, p.a33, y)
  {
    RowSlopesInX(p, x, y);
    CubicShift(Cubic(p.a00, p.a01, p.a02, p.a03, y), Cubic(p.a10, p.a11, p.a12, p.a13, y),
               Cubic(p.a20, p.a21, p.a22, p.a23, y), Cubic(p.a30, p.a31, p.a32, p.a33, y), x, e);
  }

  /** The patch as the plain sum of its sixteen monomials. */
  lemma Expanded(p: Patch, x: real, y: real)
    ensures p.Sample(x, y)
         == p.a00 + p.a01 * y + p.a02 * (y * y) + p.a03 * (y * y * y)
         + p.a10 * x + p.a11 * (x * y) + p.a12 * (x * (y * y)) + p.a13 * (x * (y * y * y))
         + p.a20 * (x * x) + p.a21 * ((x * x) * y) + p.a22 * ((x * x) * (y * y)) + p.a23 * ((x * x) * (y * y * y))
         + p.a30 * (x * x * x) + p.a31 * ((x * x * x) * y) + p.a32 * ((x * x * x) * (y * y)) + p.a33 * ((x * x * x) * (y * y * y))
  {
  }

  /** The transposed patch at (y, x) is the patch at (x, y). */
  lemma {:induction false} TransposedSample(p: Patch, x: real, y: real)
    ensures p.Transposed().Sample(y, x) == p.Sample(x, y)
  {
    Expanded(p, x, y);
    Expanded(p.Transposed(), y, x);
  }

  /** At a fixed abscissa x a patch is a cubic in y whose coefficients are the column polynomials in x. */
  lemma {:induction false} ColumnsInY(p: Patch, x: real, y: real)
    ensures p.Sample(x, y)
         == Cubic(Cubic(p.a00, p.a10, p.a20, p.a30, x), Cubic(p.a01, p.a11, p.a21, p.a31, x),
                  Cubic(p.a02, p.a12, p.a22, p.a32, x), Cubic(p.a03, p.a13, p.a23, p.a33, x), y)
  {
    TransposedSample(p, x, y);
  }

  /** Differentiating in y and transposing is transposing and differentiating in x. */
  lemma DerivYTransposed(p: Patch)
    ensures p.DerivY().Transposed() == p.Transposed().DerivX()
  {
  }

  /** The y-derivative of a patch is the derivative of its cubic in y. */
  lemma {:induction false} ColumnSlopesInY(p: Patch, x: real, y: real)
    ensures p.Dy(x, y)
         == CubicSlope(Cubic(p.a00, p.a10, p.a20, p.a30, x), Cubic(p.a01, p.a11, p.a21, p.a31, x),
                       Cubic(p.a02, p.a12, p.a22, p.a32, x), Cubic(p.a03, p.a13, p.a23, p.a33, x), y)
  {
    DerivYTransposed(p);
    TransposedSample(p.DerivY(), x, y);
    RowSlopesInX(p.Transposed(), y, x);
  }

  /**
   * Dy is the partial derivative in y: the patch moved by e in y is its exact Taylor expansion,
   * whose linear term is e * Dy.
   */
  lemma {:induction false} DyIsDerivative(p: Patch, x: real, y: real, e: real)
    ensures p.Sample(x, y + e)
         == p.Sample(x, y) + e * p.Dy(x, y)
            + e * e * (Cubic(p.a02, p.a12, p.a22, p.a32, x) + 3.0 * Cubic(p.a03, p.a13, p.a23, p.a33, x) * y)
            + e * e * e * Cubic(p.a03, p.a13, p.a23, p.a33, x)
  {
    var c0, c1 := Cubic(p.a00, p.a10, p.a20, p.a30, x), Cubic(p.a01, p.a11, p.a21, p.a31, x);
    var c2, c3 := Cubic(p.a02, p.a12, p.a22, p.a32, x), Cubic(p.a03, p.a13, p.a23, p.a33, x);
    ColumnsInY(p, x, y + e);
    ColumnsInY(p, x, y);
    ColumnSlopesInY(p, x, y);
    CubicShift(c0, c1, c2, c3, y, e);
    assert p.Sample(x, y + e) == Cubic(c0, c1, c2, c3, y + e);
    assert p.Sample(x, y) == Cubic(c0, c1, c2, c3, y);
    assert p.Dy(x, y) == CubicSlope(c0, c1, c2, c3, y);
  }

  /*
   * Two neighbouring cells. A cell built from corner data shares its edge data with the next
   * cell: the right edge of one is the left edge of the other, and the top edge of one the bottom
   * edge of the one above. The lemmas below take the two cells' data as given and ask only that
   * the data on the shared edge agree.
   */

  /** Cells side by side that agree on the values and y-derivatives of their shared edge meet there. */
  lemma {:induction false} SharedEdgeX(left: real, right: real, yDelta: real, f0: Quad, fx0: Quad, fy0: Quad, fxy0: Quad,
                                       f1: Quad, fx1: Quad, fy1: Quad, fxy1: Quad, t: real)
    requires f1.c0 == f0.c1 && f1.c2 == f0.c3 && fy1.c0 == fy0.c1 && fy1.c2 == fy0.c3
    ensures FromData(left, yDelta, f0, fx0, fy0, fxy0).Sample(1.0, t) == FromData(right, yDelta, f1, fx1, fy1, fxy1).Sample(0.0, t)
  {
    FromDataRight(left, yDelta, f0, fx0, fy0, fxy0, t);
    FromDataLeft(right, yDelta, f1, fx1, fy1, fxy1, t);
  }

  /** Cells one above the other that agree on the values and x-derivatives of their shared edge meet there. */
  lemma {:induction false} SharedEdgeY(xDelta: real, below: real, above: real, f0: Quad, fx0: Quad, fy0: Quad, fxy0: Quad,
                                       f1: Quad, fx1: Quad, fy1: Quad, fxy1: Quad, t: real)
    requires f1.c0 == f0.c2 && f1.c1 == f0.c3 && fx1.c0 == fx0.c2 && fx1.c1 == fx0.c3
    ensures FromData(xDelta, below, f0, fx0, fy0, fxy0).Sample(t, 1.0) == FromData(xDelta, above, f1, fx1, fy1, fxy1).Sample(t, 0.0)
  {
    FromDataTop(xDelta, below, f0, fx0, fy0, fxy0, t);
    FromDataBottom(xDelta, above, f1, fx1, fy1, fxy1, t);
  }

  /**
   * Cells side by side that agree on the values and y-derivatives of their shared edge also have
   * the same y-derivative along it, so the surface's tangent along the edge is continuous.
   */
  lemma {:induction false} TangentAcrossX(left: real, right: real, yDelta: real, f0: Quad, fx0: Quad, fy0: Quad, fxy0: Quad,
                                          f1: Quad, fx1: Quad, fy1: Quad, fxy1: Quad, t: real)
    requires f1.c0 == f0.c1 && f1.c2 == f0.c3 && fy1.c0 == fy0.c1 && fy1.c2 == fy0.c3
    ensures FromData(left, yDelta, f0, fx0, fy0, fxy0).Dy(1.0, t) == FromData(right, yDelta, f1, fx1, fy1, fxy1).Dy(0.0, t)
  {
    FromDataTangentLeftRight(left, yDelta, f0, fx0, fy0, fxy0, t);
    FromDataTangentLeftRight(right, yDelta, f1, fx1, fy1, fxy1, t);
  }

  /**
   * Cells one above the other that agree on the values and x-derivatives of their shared edge
   * also have the same x-derivative along it.
   */
  lemma {:induction false} TangentAcrossY(xDelta: real, below: real, above: real, f0: Quad, fx0: Quad, fy0: Quad, fxy0: Quad,
                                          f1: Quad, fx1: Quad, fy1: Quad, fxy1: Quad, t: real)
    requires f1.c0 == f0.c2 && f1.c1 == f0.c3 && fx1.c0 == fx0.c2 && fx1.c1 == fx0.c3
    ensures FromData(xDelta, below, f0, fx0, fy0, fxy0).Dx(t, 1.0) == FromData(xDelta, above, f1, fx1, fy1, fxy1).Dx(t, 0.0)
  {
    FromDataTangentBottomTop(xDelta, below, f0, fx0, fy0, fxy0, t);
    FromDataTangentBottomTop(xDelta, above, f1, fx1, fy1, fxy1, t);
  }

  /** Two multiples of the same s, each divided by its own nonzero factor, agree. */
  lemma SameRate(a: real, b: real, l: real, r: real, s: real)
    requires l != 0.0 && r != 0.0 && a == l * s && b == r * s
    ensures a / l == b / r
  {
  }

  /**
   * Cells side by side that agree on the x-derivatives and mixed derivatives of their shared
   * edge have the same slope across it in physical units: each local x-slope divided by its
   * cell width.
   */
  lemma {:induction false} MatchedSlopeX(left: real, right: real, yDelta: real, f0: Quad, fx0: Quad, fy0: Quad, fxy0: Quad,
                                         f1: Quad, fx1: Quad, fy1: Quad, fxy1: Quad, t: real)
    requires left != 0.0 && right != 0.0
    requires fx1.c0 == fx0.c1 && fx1.c2 == fx0.c3 && fxy1.c0 == fxy0.c1 && fxy1.c2 == fxy0.c3
    ensures FromData(left, yDelta, f0, fx0, fy0, fxy0).Dx(1.0, t) / left
         == FromData(right, yDelta, f1, fx1, fy1, fxy1).Dx(0.0, t) / right
  {
    FromDataSlopeRight(left, yDelta, f0, fx0, fy0, fxy0, t);
    FromDataSlopeLeft(right, yDelta, f1, fx1, fy1, fxy1, t);
    SameRate(FromData(left, yDelta, f0, fx0, fy0, fxy0).Dx(1.0, t), FromData(right, yDelta, f1, fx1, fy1, fxy1).Dx(0.0, t),
             left, right, Interp(fx0.c1, fx0.c3, yDelta * fxy0.c1, yDelta * fxy0.c3, t));
  }

  /**
   * Cells one above the other that agree on the y-derivatives and mixed derivatives of their
   * shared edge have the same slope across it in physical units.
   */
  lemma {:induction false} MatchedSlopeY(xDelta: real, below: real, above: real, f0: Quad, fx0: Quad, fy0: Quad, fxy0: Quad,
                                         f1: Quad, fx1: Quad, fy1: Quad, fxy1: Quad, t: real)
    requires below != 0.0 && above != 0.0
    requires fy1.c0 == fy0.c2 && fy1.c1 == fy0.c3 && fxy1.c0 == fxy0.c2 && fxy1.c1 == fxy0.c3
    ensures FromData(xDelta, below, f0, fx0, fy0, fxy0).Dy(t, 1.0) / below
         == FromData(xDelta, above, f1, fx1, fy1, fxy1).Dy(t, 0.0) / above
  {
    FromDataSlopeTop(xDelta, below, f0, fx0, fy0, fxy0, t);
    FromDataSlopeBottom(xDelta, above, f1, fx1, fy1, fxy1, t);
    SameRate(FromData(xDelta, below, f0, fx0, fy0, fxy0).Dy(t, 1.0), FromData(xDelta, above, f1, fx1, fy1, fxy1).Dy(t, 0.0),
             below, above, Interp(fy0.c2, fy0.c3, xDelta * fxy0.c2, xDelta * fxy0.c3, t));
  }
}
