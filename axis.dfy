/**
 * One axis of the grid (src/lib.rs, the two bisection loops of find_patch).
 *
 * An axis is the list of grid-line coordinates along x or along y. A query coordinate q strictly
 * between the first and the last line lies in some cell i, meaning axis[i] < q <= axis[i + 1];
 * on a strictly ascending axis that cell is unique.
 */
module Axis {

  /** The axis is strictly ascending (src/lib.rs:87 asks callers for this; nothing checks it). */
  predicate StrictlyAscending(axis: seq<real>)
  {
    forall i, j :: 0 <= i < j < |axis| ==> axis[i] < axis[j]
  }

  /** Cell i of the axis holds q: axis[i] < q <= axis[i + 1]. */
  predicate Brackets(axis: seq<real>, i: int, q: real)
  {
    0 <= i < |axis| - 1 && axis[i] < q <= axis[i + 1]
  }

  /** The width of cell i: the distance between its two grid lines. */
  function Width(axis: seq<real>, i: nat): real
    requires i + 1 < |axis|
  {
    axis[i + 1] - axis[i]
  }

  /**
   * Reference definition of the cell holding q: the first i with q <= axis[i + 1], found by a
   * linear scan. It exists for any axis whose first line is below q and whose last line is not.
   */
  function CellIndex(axis: seq<real>, q: real): (i: nat)
    requires |axis| >= 2 && axis[0] < q <= axis[|axis| - 1]
    ensures Brackets(axis, i, q)
    ensures forall j :: 1 <= j <= i ==> axis[j] < q
    decreases |axis|
  {
    if q <= axis[1] then 0
    else
      var rest := axis[1..];
      var k := CellIndex(rest, q);
      assert forall j :: 2 <= j <= k + 1 ==> axis[j] == rest[j - 1];
      1 + k
  }

  /** On a strictly ascending axis at most one cell holds q. */
  lemma BracketUnique(axis: seq<real>, q: real, i: int, j: int)
    requires StrictlyAscending(axis)
    requires Brackets(axis, i, q) && Brackets(axis, j, q)
    ensures i == j
  {
  }

  /** On a strictly ascending axis, any cell holding q is the reference cell. */
  lemma {:induction false} BracketIsCellIndex(axis: seq<real>, q: real, i: int)
    requires StrictlyAscending(axis)
    requires Brackets(axis, i, q)
    ensures i == CellIndex(axis, q)
  {
    BracketUnique(axis, q, i, CellIndex(axis, q));
  }

  /** Grid line i, for 0 < i < |axis| - 1, lies in cell i - 1 (as its upper end). */
  lemma {:induction false} LineCell(axis: seq<real>, i: int)
    requires StrictlyAscending(axis)
    requires 0 < i < |axis| - 1
    ensures axis[0] < axis[i] < axis[|axis| - 1]
    ensures CellIndex(axis, axis[i]) == i - 1
  {
    BracketIsCellIndex(axis, axis[i], i - 1);
  }

  /**
   * The bisection of find_patch, run on one axis: the search interval [lower, upper] always
   * brackets q and halves until it is a single cell.
   */
  method Bisect(axis: seq<real>, q: real) returns (lower: nat, upper: nat)
    requires |axis| >= 2 && axis[0] < q < axis[|axis| - 1]
    ensures upper == lower + 1
    ensures Brackets(axis, lower, q)
    ensures StrictlyAscending(axis) ==> lower == CellIndex(axis, q)
  {
    upper := |axis| - 1;
    lower := 0;
    while upper - lower > 1
      invariant 0 <= lower < upper < |axis|
      invariant axis[lower] < q <= axis[upper]
      decreases upper - lower
    {
      var center := (upper + lower) / 2;
      if q > axis[center] {
        lower := center;
      } else {
        upper := center;
      }
    }
    if StrictlyAscending(axis) {
      BracketIsCellIndex(axis, q, lower);
    }
  }
}
