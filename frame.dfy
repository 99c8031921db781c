/** What one `paintGL` frame draws: for every cell of the grid, visited
    in the order of the loops over i, then j, then k, at most one primitive
    with its translation, its kind and its alpha. */
module Frame {
  import opened Numerics
  import opened Geometry
  import opened Animation

  datatype Kind = PointKind | CubeKind

  /** One drawn primitive: the cell, the translation `glTranslatef` is
      given, the primitive drawn and the alpha of its colour. */
  datatype Primitive = Primitive(i: int, j: int, k: int, tx: real, ty: real, tz: real, kind: Kind, alpha: real)

  /** `on` for a cell: every cell with no animation, else `isOn`. */
  function On(s: Scene, i: int, j: int, k: int, t: int, sine: int -> real): bool
  {
    s.noAnimation || Lit(s, i, j, k, t, sine)
  }

  /** Whether a cell whose `on` is as given produces a primitive: it must be
      on or draw-off must be set, the mode must be Points or Cubes, and it
      must be on or the transparency non-zero. */
  predicate Emits(s: Scene, on: bool)
  {
    (on || s.drawOff)
    && ((s.mode == ModePoints && (on || s.transparency != 0.0))
        || (s.mode == ModeCubes && (on || s.transparency != 0.0)))
  }

  /** The primitive a drawn cell produces. */
  function CellPrimitive(s: Scene, i: int, j: int, k: int, on: bool): Primitive
  {
    Primitive(i, j, k,
      CellOffset(i, s.spacing, s.mode, s.ledSize, s.xCubeSize),
      CellOffset(j, s.spacing, s.mode, s.ledSize, s.yCubeSize),
      CellOffset(k, s.spacing, s.mode, s.ledSize, s.zCubeSize),
      if s.mode == ModePoints then PointKind else CubeKind,
      if on then 1.0 else s.transparency)
  }

  /** Whether cell (i, j, k) is drawn in the frame at time t. */
  predicate Shown(s: Scene, t: int, sine: int -> real, i: int, j: int, k: int)
  {
    Emits(s, On(s, i, j, k, t, sine))
  }

  /** The primitive cell (i, j, k) produces when it is drawn. */
  function PrimitiveAt(s: Scene, t: int, sine: int -> real, i: int, j: int, k: int): Primitive
  {
    CellPrimitive(s, i, j, k, On(s, i, j, k, t, sine))
  }

  /** The output of one pass of the innermost loop body. */
  function CellOutput(s: Scene, t: int, sine: int -> real, i: int, j: int, k: int): seq<Primitive>
  {
    if Shown(s, t, sine, i, j, k) then [PrimitiveAt(s, t, sine, i, j, k)] else []
  }

  /** Output of cells (i, j, 0) .. (i, j, k - 1). */
  function RowOut(s: Scene, t: int, sine: int -> real, i: int, j: int, k: int): seq<Primitive>
    decreases k
  {
    if k <= 0 then [] else RowOut(s, t, sine, i, j, k - 1) + CellOutput(s, t, sine, i, j, k - 1)
  }

  /** Output of rows 0 .. j - 1 of slab i. */
  function PlaneOut(s: Scene, t: int, sine: int -> real, i: int, j: int): seq<Primitive>
    decreases j
  {
    if j <= 0 then [] else PlaneOut(s, t, sine, i, j - 1) + RowOut(s, t, sine, i, j - 1, s.zCubes)
  }

  /** Output of slabs 0 .. i - 1. */
  function FrameUpTo(s: Scene, t: int, sine: int -> real, i: int): seq<Primitive>
    decreases i
  {
    if i <= 0 then [] else FrameUpTo(s, t, sine, i - 1) + PlaneOut(s, t, sine, i - 1, s.yCubes)
  }

  /** The primitives of a whole frame. */
  function FrameOf(s: Scene, t: int, sine: int -> real): seq<Primitive>
  {
    FrameUpTo(s, t, sine, s.xCubes)
  }

  /** Loop order: i first, then j, then k. */
  predicate Before(a: Primitive, b: Primitive)
  {
    a.i < b.i || (a.i == b.i && (a.j < b.j || (a.j == b.j && a.k < b.k)))
  }

  predicate Ordered(ps: seq<Primitive>)
  {
    forall x, y :: 0 <= x < y < |ps| ==> Before(ps[x], ps[y])
  }

  /** A primitive is genuine when its cell is drawn and it is exactly the
      primitive that cell produces. */
  predicate Genuine(s: Scene, t: int, sine: int -> real, p: Primitive)
  {
    Shown(s, t, sine, p.i, p.j, p.k) && p == PrimitiveAt(s, t, sine, p.i, p.j, p.k)
  }

  lemma OrderedAppend(a: seq<Primitive>, b: seq<Primitive>)
    requires Ordered(a) && Ordered(b)
    requires forall x, y :: 0 <= x < |a| && 0 <= y < |b| ==> Before(a[x], b[y])
    ensures Ordered(a + b)
  {
    forall x, y | 0 <= x < y < |a + b| ensures Before((a + b)[x], (a + b)[y]) {
      if y < |a| {
        assert (a + b)[x] == a[x] && (a + b)[y] == a[y];
      } else if x < |a| {
        assert (a + b)[x] == a[x] && (a + b)[y] == b[y - |a|];
      } else {
        assert (a + b)[x] == b[x - |a|] && (a + b)[y] == b[y - |a|];
      }
    }
  }

  lemma {:induction false} RowFacts(s: Scene, t: int, sine: int -> real, i: int, j: int, k: int)
    ensures forall p :: p in RowOut(s, t, sine, i, j, k) ==>
      p.i == i && p.j == j && 0 <= p.k < k && Genuine(s, t, sine, p)
    ensures Ordered(RowOut(s, t, sine, i, j, k))
    ensures forall c :: 0 <= c < k && Shown(s, t, sine, i, j, c) ==>
      PrimitiveAt(s, t, sine, i, j, c) in RowOut(s, t, sine, i, j, k)
  {
    if k > 0 {
      RowFacts(s, t, sine, i, j, k - 1);
      var a, b := RowOut(s, t, sine, i, j, k - 1), CellOutput(s, t, sine, i, j, k - 1);
      assert forall y :: 0 <= y < |b| ==> b[y] in b;
      assert forall x :: 0 <= x < |a| ==> a[x] in a;
      OrderedAppend(a, b);
    }
  }

  lemma {:induction false} PlaneFacts(s: Scene, t: int, sine: int -> real, i: int, j: int)
    ensures forall p :: p in PlaneOut(s, t, sine, i, j) ==>
      p.i == i && 0 <= p.j < j && 0 <= p.k < s.zCubes && Genuine(s, t, sine, p)
    ensures Ordered(PlaneOut(s, t, sine, i, j))
    ensures forall r, c :: 0 <= r < j && 0 <= c < s.zCubes && Shown(s, t, sine, i, r, c) ==>
      PrimitiveAt(s, t, sine, i, r, c) in PlaneOut(s, t, sine, i, j)
  {
    if j > 0 {
      PlaneFacts(s, t, sine, i, j - 1);
      RowFacts(s, t, sine, i, j - 1, s.zCubes);
      var a, b := PlaneOut(s, t, sine, i, j - 1), RowOut(s, t, sine, i, j - 1, s.zCubes);
      assert PlaneOut(s, t, sine, i, j) == a + b;
      forall x, y | 0 <= x < |a| && 0 <= y < |b| ensures Before(a[x], b[y]) {
        assert a[x] in a && b[y] in b;
      }
      OrderedAppend(a, b);
      forall r, c | 0 <= r < j && 0 <= c < s.zCubes && Shown(s, t, sine, i, r, c)
        ensures PrimitiveAt(s, t, sine, i, r, c) in a + b
      {
        if r < j - 1 {
          assert PrimitiveAt(s, t, sine, i, r, c) in a;
        } else {
          assert PrimitiveAt(s, t, sine, i, r, c) in b;
        }
      }
    }
  }

  lemma {:induction false} FrameFacts(s: Scene, t: int, sine: int -> real, i: int)
    ensures forall p :: p in FrameUpTo(s, t, sine, i) ==>
      0 <= p.i < i && 0 <= p.j < s.yCubes && 0 <= p.k < s.zCubes && Genuine(s, t, sine, p)
    ensures Ordered(FrameUpTo(s, t, sine, i))
    ensures forall x, r, c ::
      (0 <= x < i && 0 <= r < s.yCubes && 0 <= c < s.zCubes && Shown(s, t, sine, x, r, c)) ==>
      PrimitiveAt(s, t, sine, x, r, c) in FrameUpTo(s, t, sine, i)
  {
    if i > 0 {
      FrameFacts(s, t, sine, i - 1);
      PlaneFacts(s, t, sine, i - 1, s.yCubes);
      var a, b := FrameUpTo(s, t, sine, i - 1), PlaneOut(s, t, sine, i - 1, s.yCubes);
      assert FrameUpTo(s, t, sine, i) == a + b;
      forall x, y | 0 <= x < |a| && 0 <= y < |b| ensures Before(a[x], b[y]) {
        assert a[x] in a && b[y] in b;
      }
      OrderedAppend(a, b);
      forall x, r, c | 0 <= x < i && 0 <= r < s.yCubes && 0 <= c < s.zCubes && Shown(s, t, sine, x, r, c)
        ensures PrimitiveAt(s, t, sine, x, r, c) in a + b
      {
        if x < i - 1 {
          assert PrimitiveAt(s, t, sine, x, r, c) in a;
        } else {
          assert PrimitiveAt(s, t, sine, x, r, c) in b;
        }
      }
    }
  }

  /** A frame draws exactly the cells of the grid that are shown, each one
      once, in loop order, and each as the primitive that cell produces. */
  lemma FrameDrawsShownCellsOnce(s: Scene, t: int, sine: int -> real)
    ensures forall p :: p in FrameOf(s, t, sine) ==>
      0 <= p.i < s.xCubes && 0 <= p.j < s.yCubes && 0 <= p.k < s.zCubes
      && Shown(s, t, sine, p.i, p.j, p.k) && p == PrimitiveAt(s, t, sine, p.i, p.j, p.k)
    ensures forall i, j, k ::
      (0 <= i < s.xCubes && 0 <= j < s.yCubes && 0 <= k < s.zCubes && Shown(s, t, sine, i, j, k)) ==>
      PrimitiveAt(s, t, sine, i, j, k) in FrameOf(s, t, sine)
    ensures Ordered(FrameOf(s, t, sine))
  {
    FrameFacts(s, t, sine, s.xCubes);
  }

  /** The culling rule: a cell is drawn iff it is on, or draw-off is set and
      the transparency is not 0 (a zero alpha is culled, not drawn), and
      only in Points or Cubes mode. A drawn cell is opaque when on and at
      the transparency otherwise, a point in Points mode and a cube in
      Cubes mode, placed at `index * delta - extent / 2` on each axis. */
  lemma EmitRule(s: Scene, t: int, sine: int -> real, i: int, j: int, k: int)
    ensures Shown(s, t, sine, i, j, k) <==>
      (s.mode == ModePoints || s.mode == ModeCubes)
      && (On(s, i, j, k, t, sine) || (s.drawOff && s.transparency != 0.0))
    ensures var p := PrimitiveAt(s, t, sine, i, j, k);
      p.alpha == (if On(s, i, j, k, t, sine) then 1.0 else s.transparency)
      && (s.mode == ModePoints ==> p.kind == PointKind)
      && (s.mode == ModeCubes ==> p.kind == CubeKind)
      && p.tx == i as real * Delta(s.spacing, s.mode, s.ledSize) - s.xCubeSize / 2.0
      && p.ty == j as real * Delta(s.spacing, s.mode, s.ledSize) - s.yCubeSize / 2.0
      && p.tz == k as real * Delta(s.spacing, s.mode, s.ledSize) - s.zCubeSize / 2.0
  {
  }

  /** With draw-off cleared, an unlit cell is never drawn. */
  lemma UnlitCulledWithoutDrawOff(s: Scene, t: int, sine: int -> real, i: int, j: int, k: int)
    requires !s.drawOff && !On(s, i, j, k, t, sine)
    ensures CellOutput(s, t, sine, i, j, k) == []
  {
  }

  lemma {:induction false} RowSizeAllShown(s: Scene, t: int, sine: int -> real, i: int, j: int, k: int)
    requires s.noAnimation && (s.mode == ModePoints || s.mode == ModeCubes) && k >= 0
    ensures |RowOut(s, t, sine, i, j, k)| == k
  {
    if k > 0 {
      RowSizeAllShown(s, t, sine, i, j, k - 1);
    }
  }

  lemma {:induction false} PlaneSizeAllShown(s: Scene, t: int, sine: int -> real, i: int, j: int)
    requires s.noAnimation && (s.mode == ModePoints || s.mode == ModeCubes) && j >= 0 && s.zCubes >= 0
    ensures |PlaneOut(s, t, sine, i, j)| == j * s.zCubes
  {
    if j > 0 {
      PlaneSizeAllShown(s, t, sine, i, j - 1);
      RowSizeAllShown(s, t, sine, i, j - 1, s.zCubes);
      assert (j - 1) * s.zCubes + s.zCubes == j * s.zCubes;
    }
  }

  lemma {:induction false} FrameSizeAllShown(s: Scene, t: int, sine: int -> real, i: int)
    requires s.noAnimation && (s.mode == ModePoints || s.mode == ModeCubes)
    requires i >= 0 && s.yCubes >= 0 && s.zCubes >= 0
    ensures |FrameUpTo(s, t, sine, i)| == i * (s.yCubes * s.zCubes)
  {
    if i > 0 {
      FrameSizeAllShown(s, t, sine, i - 1);
      PlaneSizeAllShown(s, t, sine, i - 1, s.yCubes);
      assert (i - 1) * (s.yCubes * s.zCubes) + s.yCubes * s.zCubes == i * (s.yCubes * s.zCubes);
    }
  }

  /** With no animation in Points or Cubes mode every cell is drawn, so a
      frame holds `xCubes * yCubes * zCubes` primitives. */
  lemma FrameSizeWithoutAnimation(s: Scene, t: int, sine: int -> real)
    requires s.noAnimation && (s.mode == ModePoints || s.mode == ModeCubes)
    requires s.xCubes >= 0 && s.yCubes >= 0 && s.zCubes >= 0
    ensures |FrameOf(s, t, sine)| == s.xCubes * s.yCubes * s.zCubes
  {
    FrameSizeAllShown(s, t, sine, s.xCubes);
  }
}
