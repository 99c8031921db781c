/** The state a frame is drawn from, and the lit-cell decision `isOn` of
    the Wave and Face animations. */
module Animation {
  import opened Numerics

  /** A stored Face vertex. After an import every component is an integer
      or, on an axis whose samples were all 0, NaN. */
  datatype Vector3 = Vector3(x: Float, y: Float, z: Float)

  /** A snapshot of the widget fields that drawing one frame depends on. */
  datatype Scene = Scene(
    mode: int,
    spacing: real,
    ledSize: real,
    transparency: real,
    drawOff: bool,
    xCubes: int, yCubes: int, zCubes: int,
    xCubeSize: real, yCubeSize: real, zCubeSize: real,
    noAnimation: bool, waveAnimation: bool, faceAnimation: bool,
    vertices: seq<Vector3>)

  /** The three animation flags: exactly one is set. */
  predicate ExactlyOne(a: bool, b: bool, c: bool)
  {
    (a && !b && !c) || (!a && b && !c) || (!a && !b && c)
  }

  /** `sin` takes its values in [-1, 1]; nothing else is assumed of it. */
  ghost predicate SineBounded(sine: int -> real)
  {
    forall n: int :: -1.0 <= sine(n) <= 1.0
  }

  /** The one row the wave lights in column (x, z) at time t:
      `round(sin(z/2 + t/100)*2) + round(sin(x/2)*2) + yCubes/2`, all the
      divisions being C++ integer divisions. */
  function WaveRow(yCubes: int, x: int, z: int, t: int, sine: int -> real): int
  {
    Round(sine(CDiv(z, 2) + CDiv(t, 100)) * 2.0) + Round(sine(CDiv(x, 2)) * 2.0) + CDiv(yCubes, 2)
  }

  /** The cell the Face animation compares a vertex against: the integer
      coordinates converted to floats. */
  function CellVertex(x: int, y: int, z: int): Vector3
  {
    Vector3(Finite(x as real), Finite(y as real), Finite(z as real))
  }

  /** `isOn(x, y, z, t)`: in Wave mode a 1 x 1 x 1 grid is always lit and
      otherwise the cell on the wave row is; in Face mode (checked only
      when Wave is off) a cell is lit when some stored vertex equals it
      exactly; with neither animation nothing is. */
  function Lit(s: Scene, x: int, y: int, z: int, t: int, sine: int -> real): bool
  {
    if s.waveAnimation then
      (s.xCubes == 1 && s.yCubes == 1 && s.zCubes == 1) || y == WaveRow(s.yCubes, x, z, t, sine)
    else if s.faceAnimation then
      CellVertex(x, y, z) in s.vertices
    else
      false
  }

  /** A rounded sine scaled by 2 is an integer in [-2, 2]. */
  lemma RoundedSineBounds(v: real)
    requires -1.0 <= v <= 1.0
    ensures -2 <= Round(v * 2.0) <= 2
  {
    var n := Round(v * 2.0);
    assert n as real <= 2.5 && n as real >= -2.5;
    assert n < 3 && n > -3;
  }

  /** The wave row stays within 4 rows of the middle row `yCubes/2`. */
  lemma WaveRowNearMiddle(yCubes: int, x: int, z: int, t: int, sine: int -> real)
    requires SineBounded(sine)
    ensures CDiv(yCubes, 2) - 4 <= WaveRow(yCubes, x, z, t, sine) <= CDiv(yCubes, 2) + 4
  {
    RoundedSineBounds(sine(CDiv(z, 2) + CDiv(t, 100)));
    RoundedSineBounds(sine(CDiv(x, 2)));
  }

  /** In Wave mode on a grid other than 1 x 1 x 1, each column (x, z)
      has at most one lit cell at any time, and it lies within 4 rows of
      the middle row. */
  lemma WaveLightsOneRow(s: Scene, x: int, y: int, z: int, t: int, sine: int -> real)
    requires s.waveAnimation
    requires !(s.xCubes == 1 && s.yCubes == 1 && s.zCubes == 1)
    requires SineBounded(sine)
    requires Lit(s, x, y, z, t, sine)
    ensures forall y' :: Lit(s, x, y', z, t, sine) ==> y' == y
    ensures CDiv(s.yCubes, 2) - 4 <= y <= CDiv(s.yCubes, 2) + 4
  {
    WaveRowNearMiddle(s.yCubes, x, z, t, sine);
  }

  /** In Wave mode a 1 x 1 x 1 grid is lit at every cell and every time. */
  lemma WaveSingleCellAlwaysLit(s: Scene, x: int, y: int, z: int, t: int, sine: int -> real)
    requires s.waveAnimation && s.xCubes == 1 && s.yCubes == 1 && s.zCubes == 1
    ensures Lit(s, x, y, z, t, sine)
  {
  }

  /** In Face mode a cell is lit exactly when some stored vertex equals it,
      so an empty vertex list lights nothing, and a vertex with a NaN
      component lights no cell at all. */
  lemma FaceLitIffStored(s: Scene, x: int, y: int, z: int, t: int, sine: int -> real)
    requires s.faceAnimation && !s.waveAnimation
    ensures Lit(s, x, y, z, t, sine) <==>
      exists i :: 0 <= i < |s.vertices| && s.vertices[i] == CellVertex(x, y, z)
    ensures s.vertices == [] ==> !Lit(s, x, y, z, t, sine)
    ensures (forall i :: 0 <= i < |s.vertices| ==> s.vertices[i].x == NaN) ==> !Lit(s, x, y, z, t, sine)
  {
    if Lit(s, x, y, z, t, sine) {
      var i :| 0 <= i < |s.vertices| && s.vertices[i] == CellVertex(x, y, z);
    }
  }
}
