/**
 * One-dimensional cubic Hermite interpolation on the unit interval.
 *
 * This is the reference against which the bicubic patch is checked: along every edge of a patch,
 * and along every line parallel to an edge, the patch must be the cubic Hermite interpolant of
 * the data at the two ends.
 */
module CubicHermite {

  /** The cubic c0 + c1 t + c2 t^2 + c3 t^3 in power form. */
  function Cubic(c0: real, c1: real, c2: real, c3: real, t: real): real
  {
    c0 + c1 * t + c2 * t * t + c3 * t * t * t
  }

  /** A cubic at 0 is its constant term. */
  lemma CubicAtZero(c0: real, c1: real, c2: real, c3: real)
    ensures Cubic(c0, c1, c2, c3, 0.0) == c0
  {
  }

  /** A cubic at 1 is the sum of its coefficients. */
  lemma CubicAtOne(c0: real, c1: real, c2: real, c3: real)
    ensures Cubic(c0, c1, c2, c3, 1.0) == c0 + c1 + c2 + c3
  {
  }

  /** Its derivative with respect to t. */
  function CubicSlope(c0: real, c1: real, c2: real, c3: real, t: real): real
  {
    c1 + 2.0 * c2 * t + 3.0 * c3 * t * t
  }

  /** The Hermite blending functions on [0, 1]. */
  function H00(t: real): real { 2.0 * t * t * t - 3.0 * t * t + 1.0 }
  function H10(t: real): real { t * t * t - 2.0 * t * t + t }
  function H01(t: real): real { -2.0 * t * t * t + 3.0 * t * t }
  function H11(t: real): real { t * t * t - t * t }

  /**
   * The cubic Hermite interpolant of value v0 and slope d0 at t = 0 and value v1 and slope d1
   * at t = 1.
   */
  function Interp(v0: real, v1: real, d0: real, d1: real, t: real): real
  {
    H00(t) * v0 + H10(t) * d0 + H01(t) * v1 + H11(t) * d1
  }

  /** The derivatives of the blending functions. */
  function H00Slope(t: real): real { 6.0 * t * t - 6.0 * t }
  function H10Slope(t: real): real { 3.0 * t * t - 4.0 * t + 1.0 }
  function H01Slope(t: real): real { -6.0 * t * t + 6.0 * t }
  function H11Slope(t: real): real { 3.0 * t * t - 2.0 * t }

  /** The derivative of the interpolant with respect to t. */
  function InterpSlope(v0: real, v1: real, d0: real, d1: real, t: real): real
  {
    H00Slope(t) * v0 + H10Slope(t) * d0 + H01Slope(t) * v1 + H11Slope(t) * d1
  }

  /** In power form the interpolant is a cubic whose coefficients come from the end data. */
  lemma InterpPowerForm(v0: real, v1: real, d0: real, d1: real, t: real)
    ensures Interp(v0, v1, d0, d1, t) == Cubic(v0, d0, 3.0 * (v1 - v0) - 2.0 * d0 - d1, 2.0 * (v0 - v1) + d0 + d1, t)
  {
  }

  /** InterpSlope is the derivative of that same cubic, so it is the slope of the interpolant. */
  lemma InterpSlopePowerForm(v0: real, v1: real, d0: real, d1: real, t: real)
    ensures InterpSlope(v0, v1, d0, d1, t) == CubicSlope(v0, d0, 3.0 * (v1 - v0) - 2.0 * d0 - d1, 2.0 * (v0 - v1) + d0 + d1, t)
  {
  }

  /** The interpolant's slope at the two ends is the prescribed one. */
  lemma InterpSlopeEnds(v0: real, v1: real, d0: real, d1: real)
    ensures InterpSlope(v0, v1, d0, d1, 0.0) == d0
    ensures InterpSlope(v0, v1, d0, d1, 1.0) == d1
  {
  }

  /** The interpolant meets its four conditions. */
  lemma InterpEnds(v0: real, v1: real, d0: real, d1: real)
    ensures Interp(v0, v1, d0, d1, 0.0) == v0
    ensures Interp(v0, v1, d0, d1, 1.0) == v1
  {
  }

  /** Every cubic is the Hermite interpolant of its own values and slopes at 0 and 1. */
  lemma CubicIsInterp(c0: real, c1: real, c2: real, c3: real, t: real)
    ensures Cubic(c0, c1, c2, c3, t)
         == Interp(Cubic(c0, c1, c2, c3, 0.0), Cubic(c0, c1, c2, c3, 1.0),
                   CubicSlope(c0, c1, c2, c3, 0.0), CubicSlope(c0, c1, c2, c3, 1.0), t)
  {
  }

  /** The slope of every cubic is the slope of the Hermite interpolant of its own end data. */
  lemma CubicSlopeIsInterpSlope(c0: real, c1: real, c2: real, c3: real, t: real)
    ensures CubicSlope(c0, c1, c2, c3, t)
         == InterpSlope(Cubic(c0, c1, c2, c3, 0.0), Cubic(c0, c1, c2, c3, 1.0),
                        CubicSlope(c0, c1, c2, c3, 0.0), CubicSlope(c0, c1, c2, c3, 1.0), t)
  {
  }

  /** The interpolant is linear in its data. */
  lemma InterpScale(k: real, v0: real, v1: real, d0: real, d1: real, t: real)
    ensures Interp(k * v0, k * v1, k * d0, k * d1, t) == k * Interp(v0, v1, d0, d1, t)
  {
  }

  /** A cubic moved by e is its exact Taylor expansion about t. */
  lemma CubicShift(c0: real, c1: real, c2: real, c3: real, t: real, e: real)
    ensures Cubic(c0, c1, c2, c3, t + e)
         == Cubic(c0, c1, c2, c3, t) + e * CubicSlope(c0, c1, c2, c3, t)
            + e * e * (c2 + 3.0 * c3 * t) + e * e * e * c3
  {
  }

  /** A cubic is linear in its coefficients. */
  lemma CubicScale(k: real, c0: real, c1: real, c2: real, c3: real, t: real)
    ensures Cubic(k * c0, k * c1, k * c2, k * c3, t) == k * Cubic(c0, c1, c2, c3, t)
  {
  }

  /** The derivative of a cubic is the quadratic with the shifted, weighted coefficients. */
  lemma SlopeIsCubic(c0: real, c1: real, c2: real, c3: real, t: real)
    ensures CubicSlope(c0, c1, c2, c3, t) == Cubic(c1, 2.0 * c2, 3.0 * c3, 0.0, t)
  {
  }
}
