/** Ingestion of a Face point cloud: per-axis bounds seeded with 0, then a
    linear remap of every sample onto the integer range [1, n] of its
    axis, floored. */
module Face {
  import opened Numerics
  import opened Animation

  /** One parsed sample of the point-cloud file. */
  datatype Point = Point(x: real, y: real, z: real)

  datatype Axis = X | Y | Z

  function Coord(p: Point, a: Axis): real
  {
    match a
    case X => p.x
    case Y => p.y
    case Z => p.z
  }

  /** `std::max(a, b)` and `std::min(a, b)`. */
  function StdMax(a: real, b: real): real { if a < b then b else a }
  function StdMin(a: real, b: real): real { if b < a then b else a }

  /** The running maximum of one axis over the samples, started at 0.0 as
      the source does: it is at least 0 and every sample's coordinate,
      and it is 0 or some sample's coordinate. */
  function SeededMax(ps: seq<Point>, a: Axis): (m: real)
    ensures m >= 0.0
    ensures forall i :: 0 <= i < |ps| ==> Coord(ps[i], a) <= m
    ensures m == 0.0 || exists i :: 0 <= i < |ps| && Coord(ps[i], a) == m
  {
    if ps == [] then 0.0
    else
      var m := StdMax(SeededMax(ps[..|ps| - 1], a), Coord(ps[|ps| - 1], a));
      assert forall i :: 0 <= i < |ps| - 1 ==> ps[..|ps| - 1][i] == ps[i];
      m
  }

  /** The running minimum of one axis, started at 0.0: at most 0 and every
      sample's coordinate, and 0 or some sample's coordinate. */
  function SeededMin(ps: seq<Point>, a: Axis): (m: real)
    ensures m <= 0.0
    ensures forall i :: 0 <= i < |ps| ==> m <= Coord(ps[i], a)
    ensures m == 0.0 || exists i :: 0 <= i < |ps| && Coord(ps[i], a) == m
  {
    if ps == [] then 0.0
    else
      var m := StdMin(SeededMin(ps[..|ps| - 1], a), Coord(ps[|ps| - 1], a));
      assert forall i :: 0 <= i < |ps| - 1 ==> ps[..|ps| - 1][i] == ps[i];
      m
  }

  /** The axis has no spread, so the remap divides by zero, exactly when
      every sample on it is 0 (which includes an empty sample list). */
  lemma DegenerateAxisIffAllZero(ps: seq<Point>, a: Axis)
    ensures SeededMax(ps, a) == SeededMin(ps, a) <==>
      forall i :: 0 <= i < |ps| ==> Coord(ps[i], a) == 0.0
  {
  }

  /** `floor(1 + ((v - lo) * (n - 1)) / (hi - lo))`. With `hi == lo` the
      caller only passes `v == lo`, and 0/0 yields NaN. */
  function NormalizedCoord(v: real, lo: real, hi: real, n: int): Float
    requires lo <= v <= hi
  {
    if hi == lo then NaN else Finite(Remap(v, lo, hi, n).Floor as real)
  }

  /** The linear map of [lo, hi] onto [1, n], before flooring. */
  function Remap(v: real, lo: real, hi: real, n: int): real
    requires lo < hi
  {
    1.0 + Scale(v - lo, hi - lo, n as real - 1.0)
  }

  /** An offset `e` of a range of width `d` rescaled to width `w`. */
  function Scale(e: real, d: real, w: real): real
    requires d > 0.0
  {
    (e * w) / d
  }

  /** On an axis with spread and at least one cell, every sample lands on
      an integer in [1, n]; the lower bound maps to 1 and the upper to n. */
  lemma NormalizedCoordInRange(v: real, lo: real, hi: real, n: int)
    requires lo <= v <= hi && lo < hi && n >= 1
    ensures NormalizedCoord(v, lo, hi, n).Finite?
    ensures var c := NormalizedCoord(v, lo, hi, n).value;
      c == c.Floor as real && 1.0 <= c <= n as real
    ensures v == lo ==> NormalizedCoord(v, lo, hi, n) == Finite(1.0)
    ensures v == hi ==> NormalizedCoord(v, lo, hi, n) == Finite(n as real)
  {
    ScaleBounds(v - lo, hi - lo, n as real - 1.0);
    FloorBetween(Remap(v, lo, hi, n), n);
  }

  /** A real in [1, n] floors to an integer in [1, n]. */
  lemma FloorBetween(r: real, n: int)
    requires 1.0 <= r <= n as real
    ensures 1 <= r.Floor <= n && 1.0 <= r.Floor as real <= n as real
  {
  }

  /** Rescaling an `e` within [0, d] to width `w` gives a value in [0, w]:
      0 at `e == 0` and `w` at `e == d`. */
  lemma ScaleBounds(e: real, d: real, w: real)
    requires 0.0 <= e <= d && d > 0.0 && w >= 0.0
    ensures 0.0 <= Scale(e, d, w) <= w
    ensures e == 0.0 ==> Scale(e, d, w) == 0.0
    ensures e == d ==> Scale(e, d, w) == w
  {
    var p := e * w;
    assert 0.0 <= p by {
      assert e >= 0.0 && w >= 0.0;
    }
    assert p <= d * w by {
      assert (d - e) * w >= 0.0;
      assert d * w - p == (d - e) * w;
    }
    assert p / d <= w by {
      assert w == (d * w) / d;
    }
    assert 0.0 <= p / d;
  }

  /** On an axis without spread every stored component is NaN. */
  lemma NormalizedCoordDegenerate(v: real, n: int)
    ensures NormalizedCoord(v, v, v, n) == NaN
  {
  }

  /** A sample as it is pushed onto the vertex list, before normalising. */
  function RawVertex(p: Point): Vector3
  {
    Vector3(Finite(p.x), Finite(p.y), Finite(p.z))
  }

  /** The vertex list after the read loop: one raw vertex per sample. */
  function RawVertices(ps: seq<Point>): (vs: seq<Vector3>)
    ensures |vs| == |ps| && forall i :: 0 <= i < |ps| ==> vs[i] == RawVertex(ps[i])
  {
    seq(|ps|, i requires 0 <= i < |ps| => RawVertex(ps[i]))
  }

  /** The per-axis bounds of the min/max scan. */
  datatype Bounds = Bounds(xMin: real, xMax: real, yMin: real, yMax: real, zMin: real, zMax: real)

  function SampleBounds(ps: seq<Point>): Bounds
  {
    Bounds(SeededMin(ps, X), SeededMax(ps, X), SeededMin(ps, Y), SeededMax(ps, Y),
           SeededMin(ps, Z), SeededMax(ps, Z))
  }

  /** Every sample lies within the bounds of its own sample list. */
  predicate WithinBounds(p: Point, b: Bounds)
  {
    b.xMin <= p.x <= b.xMax && b.yMin <= p.y <= b.yMax && b.zMin <= p.z <= b.zMax
  }

  /** The stored vertex for one sample once normalised against the bounds
      of the whole list and the grid counts. */
  function NormalizedVertex(p: Point, b: Bounds, nx: int, ny: int, nz: int): Vector3
    requires WithinBounds(p, b)
  {
    Vector3(NormalizedCoord(p.x, b.xMin, b.xMax, nx),
            NormalizedCoord(p.y, b.yMin, b.yMax, ny),
            NormalizedCoord(p.z, b.zMin, b.zMax, nz))
  }

  lemma SamplesWithinBounds(ps: seq<Point>, i: int)
    requires 0 <= i < |ps|
    ensures WithinBounds(ps[i], SampleBounds(ps))
  {
    assert Coord(ps[i], X) == ps[i].x && Coord(ps[i], Y) == ps[i].y && Coord(ps[i], Z) == ps[i].z;
  }

  /** The vertex list an import leaves: each sample normalised, in file
      order. */
  function ImportedVertices(ps: seq<Point>, nx: int, ny: int, nz: int): (vs: seq<Vector3>)
    ensures |vs| == |ps|
  {
    seq(|ps|, i requires 0 <= i < |ps| =>
      SamplesWithinBounds(ps, i);
      NormalizedVertex(ps[i], SampleBounds(ps), nx, ny, nz))
  }

  /** On every axis with spread and at least one cell, each imported
      vertex has an integer coordinate in [1, n]. */
  lemma ImportedInRange(ps: seq<Point>, nx: int, ny: int, nz: int, i: int)
    requires 0 <= i < |ps|
    requires nx >= 1 && SeededMin(ps, X) != SeededMax(ps, X)
    ensures var v := ImportedVertices(ps, nx, ny, nz)[i];
      v.x.Finite? && v.x.value == v.x.value.Floor as real && 1.0 <= v.x.value <= nx as real
  {
    SamplesWithinBounds(ps, i);
    var b := SampleBounds(ps);
    NormalizedCoordInRange(ps[i].x, b.xMin, b.xMax, nx);
  }

  /** When every sample on the x axis is 0 (the file has only 0 in its
      first column, or a non-number there) every imported vertex has NaN
      as its x, so the Face animation lights no cell. */
  lemma ImportedAllZeroAxisIsNaN(ps: seq<Point>, nx: int, ny: int, nz: int, i: int)
    requires 0 <= i < |ps|
    requires forall j :: 0 <= j < |ps| ==> ps[j].x == 0.0
    ensures ImportedVertices(ps, nx, ny, nz)[i].x == NaN
  {
    assert forall j :: 0 <= j < |ps| ==> Coord(ps[j], X) == ps[j].x;
    DegenerateAxisIffAllZero(ps, X);
  }

  /** Two points (0, 0, 0) and (10, 10, 10) on a 20 x 20 x 20 grid become
      (1, 1, 1) and (20, 20, 20). Since the drawn cells are numbered 0 to
      19, the second vertex matches no cell. */
  lemma ImportTwoCorners()
    ensures ImportedVertices([Point(0.0, 0.0, 0.0), Point(10.0, 10.0, 10.0)], 20, 20, 20)
         == [CellVertex(1, 1, 1), CellVertex(20, 20, 20)]
  {
    var ps := [Point(0.0, 0.0, 0.0), Point(10.0, 10.0, 10.0)];
    var b := SampleBounds(ps);
    assert ps[..1] == [Point(0.0, 0.0, 0.0)];
    assert b == Bounds(0.0, 10.0, 0.0, 10.0, 0.0, 10.0);
    NormalizedCoordInRange(0.0, 0.0, 10.0, 20);
    NormalizedCoordInRange(10.0, 0.0, 10.0, 20);
  }

  /** The seeding at 0 matters: samples all in [5, 10] are remapped from
      [0, 10], so on a 20-cell axis the smallest lands on 10, not 1. */
  lemma SeedingAtZeroShiftsPositiveSamples()
    ensures ImportedVertices([Point(5.0, 5.0, 5.0), Point(10.0, 10.0, 10.0)], 20, 20, 20)[0]
         == CellVertex(10, 10, 10)
  {
    var ps := [Point(5.0, 5.0, 5.0), Point(10.0, 10.0, 10.0)];
    assert ps[..1] == [Point(5.0, 5.0, 5.0)];
    assert SampleBounds(ps) == Bounds(0.0, 10.0, 0.0, 10.0, 0.0, 10.0);
    assert (1.0 + (5.0 * 19.0) / 10.0).Floor == 10;
  }
}
