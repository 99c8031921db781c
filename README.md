# LED cube widget — a Dafny model

This project models the non-graphical core of `MatrixWidget`, the OpenGL widget of an LED-cube
visualiser. The widget draws an `xCubes × yCubes × zCubes` grid of LEDs as points or cubes.
It spaces them by a configurable pitch, rotates and zooms the view, and lights the cells
according to one of three animations:
- none: every cell is lit;
- a sine "wave";
- a "face": a point cloud read from a file.

The model has these parts:
- `Widget.MatrixWidget` is a class. Its fields are those of `matrixwidget.h`, and its methods are
  the widget's setters, `isOn` and the cell loop of `paintGL`. Each setter changes only the
  fields it names in its `modifies` clause. All methods keep the object invariant `Valid()`:
  - exactly one animation flag is set;
  - the three extents and their maximum agree with the counts, the spacing and the mode;
  - the zoom factor matches the raw zoom;
  - every rotation lies in [0, 360].
- Pure modules give the specification functions and the lemmas about them:
  - `Angles`: `qNormalizeAngle`;
  - `Geometry`: `delta`, `calcCubeSize`, `maximum`;
  - `Projection`: zoom mapping, wheel clamp, `resizeGL` frustum, camera distance;
  - `Animation`: the frame snapshot `Scene` and the `isOn` decision `Lit`;
  - `Face`: the point-cloud import;
  - `Frame`: the primitives one `paintGL` frame draws, in loop order;
  - `Numerics`: C++ integer division, float-to-int truncation, `round`, and a NaN-able float.

Numeric conventions:
- `float` is modelled by `real`.
- C++ `int` division truncates toward zero; it is modelled by `Numerics.CDiv`, not by Dafny's Euclidean `/`.
- The `int` conversion in `maximum` truncates toward zero (`Numerics.Trunc`).
- `round` rounds halfway cases away from zero (`Numerics.Round`).
- The NaN that `0/0` yields in the face import is a value of `Numerics.Float`. It equals no cell.
- `sqrt((float)3)` is the exact single-precision constant 1.73205077648162841796875.
- `sin` is a parameter `sine`. The lemmas about the wave assume only that it stays within [-1, 1].
- The millisecond clock is an input `t`.

Some behaviours of the code are easy to misread. The model follows the code in each of them:
- `qNormalizeAngle` keeps 360 as 360. Its loops stop at `angle > 360`, so 360 is never wrapped to 0.
- An unlit cell with draw-off set is culled when the transparency is 0, because `(on || transparency)` is false.
- `maximum` holds its running maximum in an `int` and compares `z` only when `y` did not beat `x`.
  `Geometry.SourceMaximumMissesZ` and `Geometry.SourceMaximumTruncates` show both effects.
  The rest of the model uses `maximum` exactly as written, because it is what sizes the actual frustum.
- The face import seeds its bounds with 0 and does not guard a zero range. Points therefore land on
  [1, n], while the drawn cells are numbered 0 to n−1 (`Face.ImportTwoCorners`). An axis whose samples
  are all 0 yields NaN (`Face.ImportedAllZeroAxisIsNaN`).

## Model

| member | source | states |
|---|---|---|
| Angles.NormalizedAngle | matrixwidget.cpp:275-278 | the normalised angle lies in [0, 360] and is congruent to the input modulo 360; it is 360 exactly for positive multiples of 360; an angle already in [0, 360] is unchanged |
| Angles.NormalizedAngleUnique | matrixwidget.cpp:275-278 | those three properties determine the normalised angle uniquely |
| Angles.NormalizeAngle | matrixwidget.cpp:275-278 | the two while loops (add 360 while negative, subtract 360 while above 360) compute `NormalizedAngle` |
| Angles.NormalizedAngleSamples | matrixwidget.cpp:275-278 | −30 becomes 330, 360 and 720 become 360, −360 becomes 0, 725 becomes 5 |
| Widget.MatrixWidget.SetXRotation | matrixwidget.cpp:280-286 | xRot becomes the normalised angle; `xRotationChanged` is emitted iff it differs from the previous xRot; no other field changes |
| Widget.MatrixWidget.SetYRotation | matrixwidget.cpp:288-294 | as SetXRotation, for yRot and `yRotationChanged` |
| Widget.MatrixWidget.SetZRotation | matrixwidget.cpp:296-302 | as SetXRotation, for zRot and `zRotationChanged` |
| Geometry.ExtentByMode | matrixwidget.cpp:99-117 | an axis extent is count × spacing − spacing in Points mode, and count × (spacing + ledSize) − spacing otherwise |
| Geometry.SingleCellExtent | matrixwidget.cpp:99-117 | a one-cell axis has extent 0 in Points mode and one LED edge in Cubes mode |
| Geometry.ExtentStep | matrixwidget.cpp:99-117 | one more cell on an axis grows its extent by exactly one pitch `delta()` |
| Geometry.GridCentred | matrixwidget.cpp:183-187 | with consistent extents, the drawn cells of an axis start at −extent/2 and the last one ends at +extent/2 |
| Geometry.SourceMaximumBounds | matrixwidget.cpp:89-97 | `maximum` returns one of the three truncated inputs, and it is at least the truncated x and the truncated y |
| Geometry.Maximum | matrixwidget.cpp:89-97 | the running `int` maximum with its `if`/`else if` computes `SourceMaximum` |
| Geometry.TruncatedMax | matrixwidget.cpp:89-97 | the largest of the three truncated inputs, which is what `maximum` is meant to return |
| Geometry.SourceMaximumAgreement | matrixwidget.cpp:89-97 | `maximum` equals the true truncated maximum iff it is not the case that y beats x and z beats y |
| Geometry.SourceMaximumMissesZ | matrixwidget.cpp:89-97 | 1 × 2 × 3 points at spacing 1 have extents 0, 1, 2, and `maximum` of them is 1 |
| Geometry.SourceMaximumTruncates | matrixwidget.cpp:89-97 | an extent of 0.5 on every axis gives a maximum of 0 |
| Widget.MatrixWidget.CalcCubeSize | matrixwidget.cpp:106-117 | the three extents become count × delta − spacing, and maxCube becomes `maximum` of them |
| Widget.MatrixWidget.constructor | matrixwidget.cpp:23-51 | draw mode, spacing and counts come from the store, defaulting to Points, 0.5 and 20; transparency is 0.05, raw zoom 0, zoom 1, draw-off cleared, rotations 45/45/0, no animation, empty vertex list; the object invariant holds |
| Widget.MatrixWidget.SetSpacing | matrixwidget.cpp:316-321 | spacing becomes n/10 and is written to the store as `spacing`; the extents are recomputed, so the invariant holds |
| Widget.MatrixWidget.SetMode | matrixwidget.cpp:323-332 | 0 selects Cubes, 1 selects Points, any other value keeps the mode; `drawMode` is written either way; the extents are recomputed |
| Widget.MatrixWidget.SetXSize | matrixwidget.cpp:334-339 | xCubes becomes the size and is written as `xSize`; the extents are recomputed |
| Widget.MatrixWidget.SetYSize | matrixwidget.cpp:341-346 | yCubes becomes the size and is written as `ySize`; the extents are recomputed |
| Widget.MatrixWidget.SetZSize | matrixwidget.cpp:348-353 | zCubes becomes the size and is written as `zSize`; the extents are recomputed |
| Widget.MatrixWidget.SetTransparency | matrixwidget.cpp:311-314 | the transparency becomes percent/100; nothing else changes |
| Widget.MatrixWidget.ToggleDrawOff | matrixwidget.cpp:355-358 | the draw-off flag becomes the argument; nothing else changes |
| Projection.ZoomFactorRange | matrixwidget.cpp:304-309 | the zoom factor is 1 − raw/100, falls by 0.01 per raw step, and lies in [0, 2] on [−100, 100], with 0 giving 1, 100 giving 0 and −100 giving 2 |
| Projection.ClampZoom | matrixwidget.cpp:368-369 | the result lies in [−100, 100]; values inside are kept, values above become 100 and values below become −100 |
| Widget.MatrixWidget.SetZoom | matrixwidget.cpp:304-309 | rawZoom becomes the argument and zoom its factor; nothing else changes |
| Widget.MatrixWidget.WheelEvent | matrixwidget.cpp:364-373 | rawZoom becomes the clamp of the old value plus half the delta (C++ division), so it lies in [−100, 100] and zoom in [0, 2]; `zoomChanged` always carries the new rawZoom |
| Projection.FrustumEnclosesGridCentre | matrixwidget.cpp:209-228 | the frustum is symmetric, with near 3a and far 6a; for a positive extent the grid centre at 4a (matrixwidget.cpp:154) lies strictly between the planes |
| Projection.FrustumDegenerateAtFullZoom | matrixwidget.cpp:218-225 | at raw zoom 100 the frustum has zero width and height |
| Projection.FrustumDegenerateAtZeroExtent | matrixwidget.cpp:218-225 | a zero maximum extent collapses every frustum plane to 0 |
| Widget.MatrixWidget.SetNoAnimation | matrixwidget.cpp:391-396 | afterwards only the no-animation flag is set, whatever the argument |
| Widget.MatrixWidget.SetWaveAnimation | matrixwidget.cpp:398-403 | afterwards only the wave flag is set, whatever the argument |
| Widget.MatrixWidget.SetFaceAnimation | matrixwidget.cpp:405-491 | afterwards only the face flag is set, and the vertex list is replaced by the normalised import of the samples |
| Widget.MatrixWidget.ReadSamples | matrixwidget.cpp:414-447 | a fresh vertex list holds one raw vertex per parsed sample, in file order |
| Widget.MatrixWidget.ScanBounds | matrixwidget.cpp:454-472 | the min/max scan, seeded with 0.0, yields the seeded per-axis minimum and maximum of the samples |
| Widget.MatrixWidget.NormalizeVertices | matrixwidget.cpp:474-491 | the in-place loop replaces each vertex by `floor(1 + (v − min)(n − 1)/(max − min))` per axis |
| Face.SeededMax | matrixwidget.cpp:455-472 | the seeded maximum is at least 0 and at least every sample, and it is 0 or some sample |
| Face.SeededMin | matrixwidget.cpp:458-472 | the seeded minimum is at most 0 and at most every sample, and it is 0 or some sample |
| Face.DegenerateAxisIffAllZero | matrixwidget.cpp:454-491 | the divisor max − min is 0 exactly when every sample on that axis is 0, including when there are no samples |
| Face.NormalizedCoordInRange | matrixwidget.cpp:484-490 | on an axis with spread and n ≥ 1, each coordinate becomes an integer in [1, n]; min maps to 1 and max maps to n |
| Face.NormalizedCoordDegenerate | matrixwidget.cpp:484-490 | on an axis without spread, the normalised coordinate is NaN |
| Face.ImportedVertices | matrixwidget.cpp:405-491 | the import keeps one vertex per sample |
| Face.ImportedInRange | matrixwidget.cpp:454-491 | every imported vertex has an integer x in [1, xCubes] when the x samples have spread |
| Face.ImportedAllZeroAxisIsNaN | matrixwidget.cpp:454-491 | if every x sample is 0, every imported vertex has NaN as x |
| Face.ImportTwoCorners | matrixwidget.cpp:454-491 | (0,0,0) and (10,10,10) on a 20³ grid become (1,1,1) and (20,20,20) |
| Face.SeedingAtZeroShiftsPositiveSamples | matrixwidget.cpp:454-472 | samples in [5, 10] are remapped from [0, 10], so 5 lands on 10 rather than 1 |
| Animation.RoundedSineBounds | matrixwidget.cpp:126 | `round(sin(..)*2)` is an integer in [−2, 2] |
| Animation.WaveRowNearMiddle | matrixwidget.cpp:126 | the wave row lies within 4 rows of `yCubes/2` |
| Animation.WaveLightsOneRow | matrixwidget.cpp:122-128 | in wave mode on a grid other than 1×1×1, each column (x, z) has at most one lit y at any time, within 4 of `yCubes/2` |
| Animation.WaveSingleCellAlwaysLit | matrixwidget.cpp:122-125 | in wave mode a 1×1×1 grid is lit at every cell and time |
| Animation.FaceLitIffStored | matrixwidget.cpp:129-135 | in face mode, a cell is lit iff some stored vertex equals it exactly; an empty list or all-NaN vertices light nothing |
| Widget.MatrixWidget.IsOn | matrixwidget.cpp:119-139 | the wave test, the linear vertex scan, or false, computes `Lit` of the current fields |
| Frame.RowFacts | matrixwidget.cpp:182-205 | k cells of a row give only genuine primitives of that row, with k indices below k, in k order, and one for each shown cell |
| Frame.PlaneFacts | matrixwidget.cpp:181-205 | the same for the rows 0..j−1 of a slab |
| Frame.FrameFacts | matrixwidget.cpp:180-206 | the same for slabs 0..i−1 |
| Frame.FrameDrawsShownCellsOnce | matrixwidget.cpp:180-206 | a frame holds exactly one primitive per shown cell of the grid and nothing else, in i, j, k loop order |
| Frame.EmitRule | matrixwidget.cpp:183-201 | a cell is drawn iff the mode is Points or Cubes and it is on, or draw-off is set and transparency ≠ 0; its alpha is 1 when on and the transparency otherwise; it is a point in Points mode and a cube in Cubes mode; it sits at index × delta − extent/2 |
| Frame.UnlitCulledWithoutDrawOff | matrixwidget.cpp:194 | with draw-off cleared, an unlit cell draws nothing |
| Frame.FrameSizeWithoutAnimation | matrixwidget.cpp:180-192 | with no animation in Points or Cubes mode, a frame holds xCubes × yCubes × zCubes primitives |
| Frame.FrameSizeAllShown | matrixwidget.cpp:180-192 | slabs 0..i−1 hold i × yCubes × zCubes primitives when every cell is shown |
| Widget.MatrixWidget.PaintGL | matrixwidget.cpp:141-206 | the view translates by −4a with the three rotations, and sets point size spacing × 10 in Points mode; the triple loop emits exactly `FrameOf` the current fields |
| Widget.MatrixWidget.PaintPlane | matrixwidget.cpp:181-205 | the loop over j of slab i emits `PlaneOut` of its rows |
| Widget.MatrixWidget.PaintRow | matrixwidget.cpp:182-204 | the loop over k of row (i, j) emits `RowOut` of its cells |
| Widget.MatrixWidget.PaintCell | matrixwidget.cpp:183-202 | one loop body decides `on` and then emits nothing or one primitive, as in `CellOutput` |

## Left out

- OpenGL calls (`glClear`, `glTranslatef`, `glRotatef`, `glColor4f`, `glBegin`/`glVertex`, `glFrustum`, `glViewport`, `initializeGL`) are not modelled. Only the numbers passed to them are. `drawCube`'s fixed vertex table and `drawPoint` are reduced to the kind of primitive drawn.
- The `resizeGL` calls that follow each setter are not repeated in the setters. `Widget.MatrixWidget.CurrentFrustum` gives the frustum for any viewport size, and the widget's `width()`/`height()` are parameters of it.
- The timer driving repaints and `getMilliCount`/`ftime` are I/O. The time `t` is a parameter of `IsOn` and `PaintGL`.
- The file dialog, `QFile`/`QTextStream` reading and `strtof` parsing in `setFaceAnimation` are I/O and foreign parsing. The parsed samples are a parameter; no file, or one that cannot be opened, is an empty sequence.
- `QSettings` is external storage. Reads are the constructor's `StoredSettings` argument, and writes go to the ghost `settingsLog`.
- Mouse press and move handling is not modelled: beyond calling the rotation setters it is event plumbing.
- `sin` is evaluated by the C library. It is an uninterpreted parameter, bounded in [-1, 1] where a lemma needs it.
- IEEE single-precision rounding is not modelled: arithmetic is exact on `real`. The float loop counters of `paintGL` are integers, which they are exactly for grids of fewer than 2^24 cells per axis.
- Widget.MatrixWidget.constructor: sets the rotations directly. The source calls the rotation setters on uninitialised fields, so whether their change signals fire is undefined there.
- Widget.MatrixWidget.PaintCell: calls `isOn` whenever the no-animation flag is clear. The source guards the call with `waveAnimation || faceAnimation`, which is the same under the invariant that exactly one flag is set.
- The leaked previous `Vertices` vector is not modelled: the list is a value, replaced on each import.
- window.cpp, window.h and main.cpp (window layout and signal wiring) are not part of this model.
