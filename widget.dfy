/** The LED cube widget: its configuration fields, the setters the settings
    panel calls, the lit-cell decision and the per-frame cell loop. */
module Widget {
  import opened Options
  import opened Numerics
  import opened Settings
  import opened Angles
  import opened Geometry
  import opened Projection
  import opened Animation
  import opened Face
  import opened Frame

  /** The numbers `paintGL` hands to the view transform before the cell
      loop: the camera offset along z, the three rotations and, in Points
      mode, the point size. */
  datatype View = View(cameraZ: real, xRot: int, yRot: int, zRot: int, pointSize: Option<real>)

  class MatrixWidget {
    var rawZoom: int
    var mode: int
    var xRot: int
    var yRot: int
    var zRot: int
    var spacing: real
    var transparency: real
    var xCubes: int
    var yCubes: int
    var zCubes: int
    const ledSize: real := 1.0
    var xCubeSize: real
    var yCubeSize: real
    var zCubeSize: real
    var maxCube: real
    var zoom: real
    var vertices: seq<Vector3>
    var faceAnimation: bool
    var waveAnimation: bool
    var noAnimation: bool
    /** `DRAW_OFF_LEDS_AS_TRANSLUSCENT`: unlit cells are drawn translucent
        instead of being culled. */
    var drawOffTranslucent: bool
    /** Every write made to the settings store, oldest first. */
    ghost var settingsLog: seq<SettingWrite>

    /** The extents and their maximum agree with the counts, the spacing and
        the mode. */
    ghost predicate ExtentsConsistent()
      reads this`xCubes, this`yCubes, this`zCubes, this`spacing, this`mode
      reads this`xCubeSize, this`yCubeSize, this`zCubeSize, this`maxCube
    {
      && xCubeSize == Extent(xCubes, spacing, mode, ledSize)
      && yCubeSize == Extent(yCubes, spacing, mode, ledSize)
      && zCubeSize == Extent(zCubes, spacing, mode, ledSize)
      && maxCube == SourceMaximum(xCubeSize, yCubeSize, zCubeSize)
    }

    /** The object invariant: one animation, consistent extents, a zoom
        factor matching the raw zoom, and normalised rotations. */
    ghost predicate Valid()
      reads this`noAnimation, this`waveAnimation, this`faceAnimation
      reads this`xCubes, this`yCubes, this`zCubes, this`spacing, this`mode
      reads this`xCubeSize, this`yCubeSize, this`zCubeSize, this`maxCube
      reads this`zoom, this`rawZoom, this`xRot, this`yRot, this`zRot
    {
      && ExactlyOne(noAnimation, waveAnimation, faceAnimation)
      && ExtentsConsistent()
      && zoom == ZoomFactor(rawZoom)
      && 0 <= xRot <= 360 && 0 <= yRot <= 360 && 0 <= zRot <= 360
    }

    /** The fields a frame is drawn from. */
    function Scene(): Scene
      reads this
    {
      Animation.Scene(mode, spacing, ledSize, transparency, drawOffTranslucent,
        xCubes, yCubes, zCubes, xCubeSize, yCubeSize, zCubeSize,
        noAnimation, waveAnimation, faceAnimation, vertices)
    }

    /** The constructor: values from the settings store (defaults: Points
        mode, spacing 0.5, 20 cells per axis), transparency 0.05, raw zoom 0,
        rotations 45, 45 and 0, no animation and an empty vertex list. */
    constructor (stored: StoredSettings)
      ensures Valid()
      ensures mode == stored.drawMode.GetOr(DefaultDrawMode)
      ensures spacing == stored.spacing.GetOr(DefaultSpacing)
      ensures xCubes == stored.xSize.GetOr(DefaultSize)
      ensures yCubes == stored.ySize.GetOr(DefaultSize)
      ensures zCubes == stored.zSize.GetOr(DefaultSize)
      ensures transparency == 0.05 && rawZoom == 0 && zoom == 1.0 && !drawOffTranslucent
      ensures xRot == 45 && yRot == 45 && zRot == 0
      ensures noAnimation && vertices == [] && settingsLog == []
    {
      mode := stored.drawMode.GetOr(DefaultDrawMode);
      spacing := stored.spacing.GetOr(DefaultSpacing);
      transparency := 0.05;
      rawZoom := 0;
      zoom := ZoomFactor(0);
      drawOffTranslucent := false;
      var nx, ny, nz := stored.xSize.GetOr(DefaultSize), stored.ySize.GetOr(DefaultSize),
        stored.zSize.GetOr(DefaultSize);
      xCubes, yCubes, zCubes := nx, ny, nz;
      xRot, yRot, zRot := 45, 45, 0;
      faceAnimation, waveAnimation, noAnimation := false, false, true;
      vertices := [];
      settingsLog := [];
      new;
      CalcCubeSize();
    }

    /** `calcCubeSize`: recomputes the three extents and their maximum. */
    method CalcCubeSize()
      modifies this`xCubeSize, this`yCubeSize, this`zCubeSize, this`maxCube
      ensures ExtentsConsistent()
    {
      var d := Delta(spacing, mode, ledSize);
      var ex, ey, ez := xCubes as real * d - spacing, yCubes as real * d - spacing, zCubes as real * d - spacing;
      assert ex == Extent(xCubes, spacing, mode, ledSize) && ey == Extent(yCubes, spacing, mode, ledSize)
          && ez == Extent(zCubes, spacing, mode, ledSize);
      var m := Maximum(ex, ey, ez);
      xCubeSize, yCubeSize, zCubeSize, maxCube := ex, ey, ez, m;
    }

    /** `setXRotation`: stores the normalised angle and reports whether
        `xRotationChanged(xRot)` is emitted, which happens exactly when the
        normalised angle differs from the previous one. */
    method SetXRotation(angle: int) returns (notified: bool)
      requires Valid()
      modifies this`xRot
      ensures Valid()
      ensures xRot == NormalizedAngle(angle)
      ensures notified <==> NormalizedAngle(angle) != old(xRot)
    {
      var a := NormalizeAngle(angle);
      notified := a != xRot;
      if notified {
        xRot := a;
      }
    }

    /** `setYRotation`, as `SetXRotation` for the y axis. */
    method SetYRotation(angle: int) returns (notified: bool)
      requires Valid()
      modifies this`yRot
      ensures Valid()
      ensures yRot == NormalizedAngle(angle)
      ensures notified <==> NormalizedAngle(angle) != old(yRot)
    {
      var a := NormalizeAngle(angle);
      notified := a != yRot;
      if notified {
        yRot := a;
      }
    }

    /** `setZRotation`, as `SetXRotation` for the z axis. */
    method SetZRotation(angle: int) returns (notified: bool)
      requires Valid()
      modifies this`zRot
      ensures Valid()
      ensures zRot == NormalizedAngle(angle)
      ensures notified <==> NormalizedAngle(angle) != old(zRot)
    {
      var a := NormalizeAngle(angle);
      notified := a != zRot;
      if notified {
        zRot := a;
      }
    }

    /** `setZoom`: stores the raw value and its factor. */
    method SetZoom(newZoom: int)
      requires Valid()
      modifies this`rawZoom, this`zoom
      ensures Valid()
      ensures rawZoom == newZoom && zoom == ZoomFactor(newZoom)
    {
      rawZoom := newZoom;
      zoom := newZoom as real / -100.0 + 1.0;
    }

    /** `wheelEvent`: adds half the wheel delta, clamps to [-100, 100], sets
        the zoom and always emits `zoomChanged(rawZoom)`, whose argument is
        returned. */
    method WheelEvent(wheelDelta: int) returns (zoomSignal: int)
      requires Valid()
      modifies this`rawZoom, this`zoom
      ensures Valid()
      ensures rawZoom == ClampZoom(old(rawZoom) + WheelStep(wheelDelta))
      ensures -ZoomLimit <= rawZoom <= ZoomLimit && 0.0 <= zoom <= 2.0
      ensures zoomSignal == rawZoom
    {
      var r := rawZoom + CDiv(wheelDelta, 2);
      if r > 100 {
        r := 100;
      }
      if r < -100 {
        r := -100;
      }
      SetZoom(r);
      ZoomFactorRange(r);
      zoomSignal := rawZoom;
    }

    /** `setTransparency`: a percentage mapped to an alpha. */
    method SetTransparency(percent: int)
      requires Valid()
      modifies this`transparency
      ensures Valid()
      ensures transparency == percent as real / 100.0
    {
      transparency := percent as real / 100.0;
    }

    /** `setSpacing`: tenths of a unit, written to the store as `spacing`,
        then the extents are recomputed. */
    method SetSpacing(tenths: int)
      requires Valid()
      modifies this`spacing, this`settingsLog, this`xCubeSize, this`yCubeSize, this`zCubeSize, this`maxCube
      ensures Valid()
      ensures spacing == tenths as real / 10.0
      ensures settingsLog == old(settingsLog) + [SettingWrite("spacing", RealValue(spacing))]
    {
      spacing := tenths as real / 10.0;
      settingsLog := settingsLog + [SettingWrite("spacing", RealValue(spacing))];
      CalcCubeSize();
    }

    /** `setMode`: 0 selects Cubes, 1 selects Points, any other value keeps
        the mode; the mode is written to the store as `drawMode` either way
        and the extents are recomputed. */
    method SetMode(cur: int)
      requires Valid()
      modifies this`mode, this`settingsLog, this`xCubeSize, this`yCubeSize, this`zCubeSize, this`maxCube
      ensures Valid()
      ensures mode == (if cur == 0 then ModeCubes else if cur == 1 then ModePoints else old(mode))
      ensures settingsLog == old(settingsLog) + [SettingWrite("drawMode", IntValue(mode))]
    {
      if cur == 0 {
        mode := ModeCubes;
      } else if cur == 1 {
        mode := ModePoints;
      }
      settingsLog := settingsLog + [SettingWrite("drawMode", IntValue(mode))];
      CalcCubeSize();
    }

    /** `setXSize`: the x count, written to the store as `xSize`. */
    method SetXSize(size: int)
      requires Valid()
      modifies this`xCubes, this`settingsLog, this`xCubeSize, this`yCubeSize, this`zCubeSize, this`maxCube
      ensures Valid()
      ensures xCubes == size
      ensures settingsLog == old(settingsLog) + [SettingWrite("xSize", IntValue(size))]
    {
      xCubes := size;
      settingsLog := settingsLog + [SettingWrite("xSize", IntValue(xCubes))];
      CalcCubeSize();
    }

    /** `setYSize`: the y count, written to the store as `ySize`. */
    method SetYSize(size: int)
      requires Valid()
      modifies this`yCubes, this`settingsLog, this`xCubeSize, this`yCubeSize, this`zCubeSize, this`maxCube
      ensures Valid()
      ensures yCubes == size
      ensures settingsLog == old(settingsLog) + [SettingWrite("ySize", IntValue(size))]
    {
      yCubes := size;
      settingsLog := settingsLog + [SettingWrite("ySize", IntValue(yCubes))];
      CalcCubeSize();
    }

    /** `setZSize`: the z count, written to the store as `zSize`. */
    method SetZSize(size: int)
      requires Valid()
      modifies this`zCubes, this`settingsLog, this`xCubeSize, this`yCubeSize, this`zCubeSize, this`maxCube
      ensures Valid()
      ensures zCubes == size
      ensures settingsLog == old(settingsLog) + [SettingWrite("zSize", IntValue(size))]
    {
      zCubes := size;
      settingsLog := settingsLog + [SettingWrite("zSize", IntValue(zCubes))];
      CalcCubeSize();
    }

    /** `toggleDrawOff`. */
    method ToggleDrawOff(draw: bool)
      requires Valid()
      modifies this`drawOffTranslucent
      ensures Valid()
      ensures drawOffTranslucent == draw
    {
      drawOffTranslucent := draw;
    }

    /** `setNoAnimation`: only the no-animation flag is left set, whatever
        the argument. The vertex list is kept but no longer consulted. */
    method SetNoAnimation(enabled: bool)
      requires Valid()
      modifies this`noAnimation, this`waveAnimation, this`faceAnimation
      ensures Valid()
      ensures noAnimation && !waveAnimation && !faceAnimation
    {
      noAnimation := true;
      waveAnimation := false;
      faceAnimation := false;
    }

    /** `setWaveAnimation`: only the wave flag is left set. */
    method SetWaveAnimation(enabled: bool)
      requires Valid()
      modifies this`noAnimation, this`waveAnimation, this`faceAnimation
      ensures Valid()
      ensures !noAnimation && waveAnimation && !faceAnimation
    {
      noAnimation := false;
      waveAnimation := true;
      faceAnimation := false;
    }

    /** `setFaceAnimation`: only the face flag is left set, and the vertex
        list is replaced by a fresh one holding the samples of the chosen
        file (`samples` is empty when no file is chosen or it cannot be
        opened), each normalised onto the grid. */
    method SetFaceAnimation(enabled: bool, samples: seq<Point>)
      requires Valid()
      modifies this`noAnimation, this`waveAnimation, this`faceAnimation, this`vertices
      ensures Valid()
      ensures !noAnimation && !waveAnimation && faceAnimation
      ensures vertices == ImportedVertices(samples, xCubes, yCubes, zCubes)
    {
      noAnimation := false;
      waveAnimation := false;
      faceAnimation := true;
      assert Valid();
      ReadSamples(samples);
      assert Valid();
      var b := ScanBounds(samples);
      NormalizeVertices(samples, b);
    }

    /** The read loop: a fresh vertex list with one raw vertex per sample,
        in file order. */
    method ReadSamples(samples: seq<Point>)
      modifies this`vertices
      ensures vertices == RawVertices(samples)
    {
      vertices := [];
      var n := 0;
      while n < |samples|
        invariant 0 <= n <= |samples|
        invariant vertices == RawVertices(samples[..n])
      {
        assert samples[..n + 1][..n] == samples[..n];
        vertices := vertices + [RawVertex(samples[n])];
        n := n + 1;
      }
      assert samples[..n] == samples;
    }

    /** The min/max scan over the raw vertex list, every bound starting at
        0.0: its result is the per-axis seeded minimum and maximum of the
        samples. */
    method ScanBounds(samples: seq<Point>) returns (b: Bounds)
      requires vertices == RawVertices(samples)
      ensures b == SampleBounds(samples)
    {
      var xMax, yMax, zMax := 0.0, 0.0, 0.0;
      var xMin, yMin, zMin := 0.0, 0.0, 0.0;
      var i := 0;
      while i < |vertices|
        invariant 0 <= i <= |vertices|
        invariant xMax == SeededMax(samples[..i], X) && xMin == SeededMin(samples[..i], X)
        invariant yMax == SeededMax(samples[..i], Y) && yMin == SeededMin(samples[..i], Y)
        invariant zMax == SeededMax(samples[..i], Z) && zMin == SeededMin(samples[..i], Z)
      {
        assert samples[..i + 1][..i] == samples[..i];
        var v := vertices[i];
        xMax := StdMax(xMax, v.x.value);
        yMax := StdMax(yMax, v.y.value);
        zMax := StdMax(zMax, v.z.value);
        xMin := StdMin(xMin, v.x.value);
        yMin := StdMin(yMin, v.y.value);
        zMin := StdMin(zMin, v.z.value);
        i := i + 1;
      }
      assert samples[..i] == samples;
      b := Bounds(xMin, xMax, yMin, yMax, zMin, zMax);
    }

    /** The normalising loop: each raw vertex is replaced in place by its
        remap onto [1, n] of its axis against the bounds of the scan. */
    method NormalizeVertices(samples: seq<Point>, b: Bounds)
      requires vertices == RawVertices(samples) && b == SampleBounds(samples)
      modifies this`vertices
      ensures vertices == ImportedVertices(samples, xCubes, yCubes, zCubes)
    {
      var i := 0;
      while i < |vertices|
        invariant 0 <= i <= |vertices| == |samples|
        invariant forall j :: 0 <= j < i ==> vertices[j] == ImportedVertices(samples, xCubes, yCubes, zCubes)[j]
        invariant forall j :: i <= j < |vertices| ==> vertices[j] == RawVertex(samples[j])
      {
        SamplesWithinBounds(samples, i);
        var v := vertices[i];
        vertices := vertices[i := Vector3(
          NormalizedCoord(v.x.value, b.xMin, b.xMax, xCubes),
          NormalizedCoord(v.y.value, b.yMin, b.yMax, yCubes),
          NormalizedCoord(v.z.value, b.zMin, b.zMax, zCubes))];
        i := i + 1;
      }
    }

    /** `isOn(x, y, z, t)`, with `sine` standing for `sin`: the wave test, or
        a linear scan of the vertex list for an exact match. */
    method IsOn(x: int, y: int, z: int, t: int, sine: int -> real) returns (r: bool)
      ensures r == Lit(Scene(), x, y, z, t, sine)
    {
      if waveAnimation {
        if xCubes == 1 && yCubes == 1 && zCubes == 1 {
          return true;
        }
        if y == WaveRow(yCubes, x, z, t, sine) {
          return true;
        }
      } else if faceAnimation {
        var target := CellVertex(x, y, z);
        var i := 0;
        while i < |vertices|
          invariant 0 <= i <= |vertices|
          invariant forall j :: 0 <= j < i ==> vertices[j] != target
        {
          if vertices[i] == target {
            return true;
          }
          i := i + 1;
        }
      }
      return false;
    }

    /** The `glFrustum` arguments `resizeGL` computes for a viewport of
        `w` by `h` pixels from the current maximum extent and zoom. */
    function CurrentFrustum(w: int, h: int): Frustum
      reads this
    {
      ResizeFrustum(maxCube, w, h, zoom)
    }

    /** `paintGL` without the GL calls: the view set-up and, from the triple
        loop over the cells, the primitives drawn, in loop order. */
    method PaintGL(t: int, sine: int -> real) returns (view: View, frame: seq<Primitive>)
      ensures view == View(-CameraDistance(maxCube), xRot, yRot, zRot,
                           if mode == ModePoints then Some(spacing * 10.0) else None)
      ensures frame == FrameOf(Scene(), t, sine)
    {
      view := View(-(4.0 * (maxCube * Sqrt3Float)), xRot, yRot, zRot,
                   if mode == ModePoints then Some(spacing * 10.0) else None);
      frame := [];
      var i := 0;
      while i < xCubes
        invariant 0 <= i && (i <= xCubes || i == 0)
        invariant frame == FrameUpTo(Scene(), t, sine, i)
      {
        var plane := PaintPlane(i, t, sine);
        frame := frame + plane;
        i := i + 1;
      }
    }

    /** The loop over j of slab i. */
    method PaintPlane(i: int, t: int, sine: int -> real) returns (plane: seq<Primitive>)
      ensures plane == PlaneOut(Scene(), t, sine, i, yCubes)
    {
      plane := [];
      var j := 0;
      while j < yCubes
        invariant 0 <= j && (j <= yCubes || j == 0)
        invariant plane == PlaneOut(Scene(), t, sine, i, j)
      {
        var row := PaintRow(i, j, t, sine);
        plane := plane + row;
        j := j + 1;
      }
    }

    /** The loop over k of row (i, j). */
    method PaintRow(i: int, j: int, t: int, sine: int -> real) returns (row: seq<Primitive>)
      ensures row == RowOut(Scene(), t, sine, i, j, zCubes)
    {
      row := [];
      var k := 0;
      while k < zCubes
        invariant 0 <= k && (k <= zCubes || k == 0)
        invariant row == RowOut(Scene(), t, sine, i, j, k)
      {
        var cell := PaintCell(i, j, k, t, sine);
        row := row + cell;
        k := k + 1;
      }
    }

    /** One pass of the innermost loop body: `on` is true with no animation
        and `isOn` otherwise; a lit cell, or an unlit one when draw-off is
        set, is drawn as a point or a cube by the mode, unless it is unlit
        and the transparency is 0. */
    method PaintCell(i: int, j: int, k: int, t: int, sine: int -> real) returns (cell: seq<Primitive>)
      ensures cell == CellOutput(Scene(), t, sine, i, j, k)
    {
      var tx := i as real * Delta(spacing, mode, ledSize) - xCubeSize / 2.0;
      var ty := j as real * Delta(spacing, mode, ledSize) - yCubeSize / 2.0;
      var tz := k as real * Delta(spacing, mode, ledSize) - zCubeSize / 2.0;
      var on: bool;
      if noAnimation {
        on := true;
      } else {
        on := IsOn(i, j, k, t, sine);
      }
      assert on == On(Scene(), i, j, k, t, sine);
      cell := [];
      if on || drawOffTranslucent {
        var alpha := if on then 1.0 else transparency;
        assert PrimitiveAt(Scene(), t, sine, i, j, k) == Primitive(i, j, k, tx, ty, tz, if mode == ModePoints then PointKind else CubeKind, alpha);
        if mode == ModePoints && (on || transparency != 0.0) {
          cell := [Primitive(i, j, k, tx, ty, tz, PointKind, alpha)];
        } else if mode == ModeCubes && (on || transparency != 0.0) {
          cell := [Primitive(i, j, k, tx, ty, tz, CubeKind, alpha)];
        }
      }
    }
  }
}
