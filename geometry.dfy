/** Grid geometry: the pitch between cell origins, the extent of the grid
    along each axis, and the widget's `maximum` helper over the three
    extents. */
module Geometry {
  import opened Numerics

  /** The two draw modes; the stored mode is a plain `int` that may hold
      any value read from the settings store. */
  const ModeCubes: int := 0
  const ModePoints: int := 1

  /** `delta()`: distance between the origins of adjacent cells. Points
      have no area, so in Points mode it is the spacing alone; in every
      other mode a cell of edge `ledSize` sits between two gaps. */
  function Delta(spacing: real, mode: int, ledSize: real): real
  {
    spacing + (if mode == ModePoints then 0.0 else ledSize)
  }

  /** The extent `calcCubeSize` assigns to an axis of `n` cells: `n` pitches
      less the one gap that follows the last cell. */
  function Extent(n: int, spacing: real, mode: int, ledSize: real): real
  {
    n as real * Delta(spacing, mode, ledSize) - spacing
  }

  /** The edge of one drawn cell: a cube has edge `ledSize`, a point none. */
  function CellEdge(mode: int, ledSize: real): real
  {
    if mode == ModePoints then 0.0 else ledSize
  }

  /** The extent is the pitch times the count less the spacing, with the
      pitch equal to the spacing in Points mode and to spacing plus cell
      edge otherwise. */
  lemma ExtentByMode(n: int, spacing: real, mode: int, ledSize: real)
    ensures mode == ModePoints ==> Extent(n, spacing, mode, ledSize) == n as real * spacing - spacing
    ensures mode != ModePoints ==>
      Extent(n, spacing, mode, ledSize) == n as real * (spacing + ledSize) - spacing
  {
  }

  /** In Points mode an axis one cell wide has no extent, whatever the
      spacing; in Cubes mode it is exactly one cell edge. */
  lemma SingleCellExtent(spacing: real, mode: int, ledSize: real)
    ensures mode == ModePoints ==> Extent(1, spacing, mode, ledSize) == 0.0
    ensures mode != ModePoints ==> Extent(1, spacing, mode, ledSize) == ledSize
  {
  }

  /** Adding a cell to an axis grows its extent by one pitch. */
  lemma ExtentStep(n: int, spacing: real, mode: int, ledSize: real)
    ensures Extent(n + 1, spacing, mode, ledSize)
         == Extent(n, spacing, mode, ledSize) + Delta(spacing, mode, ledSize)
  {
  }

  /** The offset at which the cell with index `i` is drawn along an axis
      whose extent is `extent`: `i * delta() - extent / 2`. */
  function CellOffset(i: int, spacing: real, mode: int, ledSize: real, extent: real): real
  {
    i as real * Delta(spacing, mode, ledSize) - extent / 2.0
  }

  /** With a consistent extent the drawn cells of an axis of `n >= 1` cells
      span exactly [-extent/2, extent/2]: the first cell starts at
      -extent/2 and the far side of the last cell ends at extent/2, so the
      grid is centred on the origin. */
  lemma GridCentred(n: int, spacing: real, mode: int, ledSize: real)
    requires n >= 1
    ensures var e := Extent(n, spacing, mode, ledSize);
      CellOffset(0, spacing, mode, ledSize, e) == -e / 2.0
      && CellOffset(n - 1, spacing, mode, ledSize, e) + CellEdge(mode, ledSize) == e / 2.0
  {
    var d := Delta(spacing, mode, ledSize);
    var e := Extent(n, spacing, mode, ledSize);
    assert (n - 1) as real * d == n as real * d - d;
    assert d == spacing + CellEdge(mode, ledSize);
  }

  /** The value `maximum(x, y, z)` returns: the running maximum is an
      `int`, so every candidate is truncated toward zero, and `z` is looked
      at only when `y` does not beat the truncated `x`. */
  function SourceMaximum(x: real, y: real, z: real): real
  {
    if y > Trunc(x) as real then Trunc(y) as real
    else if z > Trunc(x) as real then Trunc(z) as real
    else Trunc(x) as real
  }

  /** What `maximum` returns is one of the three truncated inputs and is
      at least the truncated `x` and the truncated `y`. */
  lemma SourceMaximumBounds(x: real, y: real, z: real)
    ensures var m := SourceMaximum(x, y, z);
      (m == Trunc(x) as real || m == Trunc(y) as real || m == Trunc(z) as real)
      && m >= Trunc(x) as real && m >= Trunc(y) as real
  {
    var tx := Trunc(x);
    if y > tx as real {
      TruncAboveInt(y, tx);
    } else {
      TruncAtMostInt(y, tx);
      if z > tx as real {
        TruncAboveInt(z, tx);
      }
    }
  }

  /** `maximum`: a running maximum held in an `int`. */
  method Maximum(x: real, y: real, z: real) returns (m: real)
    ensures m == SourceMaximum(x, y, z)
  {
    var max: int := Trunc(x);
    if y > max as real {
      max := Trunc(y);
    } else if z > max as real {
      max := Trunc(z);
    }
    m := max as real;
  }

  /** The largest of three truncated values, which `maximum` is meant to
      compute. */
  function TruncatedMax(x: real, y: real, z: real): (m: int)
    ensures m >= Trunc(x) && m >= Trunc(y) && m >= Trunc(z)
    ensures m == Trunc(x) || m == Trunc(y) || m == Trunc(z)
  {
    var a := Trunc(x);
    var b := if Trunc(y) > a then Trunc(y) else a;
    if Trunc(z) > b then Trunc(z) else b
  }

  /** `maximum` gives the largest truncated value unless `y` beats `x` and
      `z` is larger still: then `z` is never compared. */
  lemma SourceMaximumAgreement(x: real, y: real, z: real)
    ensures SourceMaximum(x, y, z) == TruncatedMax(x, y, z) as real
        <==> !(y > Trunc(x) as real && Trunc(z) > Trunc(y))
  {
  }

  /** A grid of 1 x 2 x 3 points at spacing 1 has extents 0, 1 and 2, and
      `maximum` of them is 1, not 2: the tallest axis is missed. */
  lemma SourceMaximumMissesZ()
    ensures Extent(1, 1.0, ModePoints, 1.0) == 0.0
    ensures Extent(2, 1.0, ModePoints, 1.0) == 1.0
    ensures Extent(3, 1.0, ModePoints, 1.0) == 2.0
    ensures SourceMaximum(0.0, 1.0, 2.0) == 1.0
  {
  }

  /** Extents below one are truncated to 0: a 1 x 1 x 1 cube grid at
      spacing 0.5 has extent 1 on every axis, but a 2-wide Points grid at
      spacing 0.5 has extent 0.5 and `maximum` yields 0. */
  lemma SourceMaximumTruncates()
    ensures Extent(2, 0.5, ModePoints, 1.0) == 0.5
    ensures SourceMaximum(0.5, 0.5, 0.5) == 0.0
  {
  }
}
