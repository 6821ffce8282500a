/** The navigation overlay (window.navigationRenderer): a canvas over the layout that shows
    the path-finding grid's wall cells, one-way arrow cells and free cells, under the same
    view transform as the layout map. */
module Navigation {
  import opened Common

  /** An arrow cell: its centre and a bit mask of allowed directions (1 up, 2 down, 4 left,
      8 right). */
  datatype NavArrow = NavArrow(x: real, y: real, dir: int)

  /** The four directions an arrow cell can allow. */
  datatype Heading = Up | Down | Left | Right

  function HeadingBit(d: Heading): nat
  {
    match d
    case Up => 0
    case Down => 1
    case Left => 2
    case Right => 3
  }

  /** `dir & (1 << b)` on the 32-bit integer JavaScript makes of dir. */
  predicate HasBit(dir: int, b: nat)
    requires b < 4
  {
    (dir % 0x1_0000_0000) / Pow2(b) % 2 == 1
  }

  function Pow2(b: nat): (r: nat)
    ensures r >= 1
  {
    if b == 0 then 1 else 2 * Pow2(b - 1)
  }

  datatype NavCmd =
    | Clear(width: real, height: real)
    | Place(offsetX: real, offsetY: real, scale: real, view: Point)
    | WallBox(box: Rect)
    | CellShade(box: Rect)
    | Stroke(heading: Heading, tail: Point, tip: Point, wing1: Point, wing2: Point)
    | FreeDot(center: Point, radius: real)

  // ---------------------------------------------------------------------------
  // Fit
  // ---------------------------------------------------------------------------

  /** The fit of the whole layout into the canvas: the scale that makes it fit ('meet'),
      and the offsets that centre it. */
  datatype NavFit = NavFit(fitScale: real, offsetX: real, offsetY: real)

  function FitLayout(w: real, h: real, lw: real, lh: real): (f: NavFit)
    requires lw > 0.0 && lh > 0.0
  {
    var s := Min(w / lw, h / lh);
    NavFit(s, (w - lw * s) / 2.0, (h - lh * s) / 2.0)
  }

  /** The layout fills the canvas along one axis, fits along the other, and is centred. */
  lemma FitLayoutCentres(w: real, h: real, lw: real, lh: real)
    requires w > 0.0 && h > 0.0 && lw > 0.0 && lh > 0.0
    ensures var f := FitLayout(w, h, lw, lh);
            f.fitScale > 0.0 && lw * f.fitScale <= w && lh * f.fitScale <= h &&
            (lw * f.fitScale == w || lh * f.fitScale == h) &&
            f.offsetX >= 0.0 && f.offsetY >= 0.0 &&
            2.0 * f.offsetX + lw * f.fitScale == w && 2.0 * f.offsetY + lh * f.fitScale == h
  {
    var sx, sy := w / lw, h / lh;
    assert lw * sx == w && lh * sy == h;
    var s := Min(sx, sy);
    MulLe(s, sx, lw);
    MulLe(s, sy, lh);
  }

  lemma MulLe(a: real, b: real, c: real)
    requires c > 0.0 && a <= b
    ensures c * a <= c * b
  {
  }

  /** Where a layout point lands on the canvas: translate by the offsets, then by the view
      origin at the current scale, then scale. */
  function ToScreen(f: NavFit, k: real, view: Point, p: Point): Point
  {
    var s := k * f.fitScale;
    Point(f.offsetX - view.x * s + p.x * s, f.offsetY - view.y * s + p.y * s)
  }

  /** With the whole layout in view (origin 0, zoom 1) its corners land on the centred
      drawn area. */
  lemma WholeLayoutInView(w: real, h: real, lw: real, lh: real)
    requires w > 0.0 && h > 0.0 && lw > 0.0 && lh > 0.0
    ensures var f := FitLayout(w, h, lw, lh);
            ToScreen(f, 1.0, Point(0.0, 0.0), Point(0.0, 0.0)) == Point(f.offsetX, f.offsetY) &&
            ToScreen(f, 1.0, Point(0.0, 0.0), Point(lw, lh)) == Point(w - f.offsetX, h - f.offsetY)
  {
    FitLayoutCentres(w, h, lw, lh);
  }

  // ---------------------------------------------------------------------------
  // Walls
  // ---------------------------------------------------------------------------

  /** The box of the wall cell centred at (x, y): inset by 5% of the cell on each side. */
  function WallCell(x: real, y: real, cell: real): Rect
  {
    var gap := cell * 0.05;
    Rect(x - cell / 2.0 + gap, y - cell / 2.0 + gap, cell - 2.0 * gap, cell - 2.0 * gap)
  }

  /** A wall box lies strictly inside its cell, with the same centre. */
  lemma WallCellInside(x: real, y: real, cell: real)
    requires cell > 0.0
    ensures var r := WallCell(x, y, cell);
            r.w > 0.0 && r.h > 0.0 &&
            x - cell / 2.0 < r.x && r.x + r.w < x + cell / 2.0 &&
            y - cell / 2.0 < r.y && r.y + r.h < y + cell / 2.0 &&
            r.x + r.w / 2.0 == x && r.y + r.h / 2.0 == y
  {
  }

  /** One box per (x, y) pair of the flat list; a trailing odd value has no partner and
      gives no box. */
  function WallCmds(walls: seq<real>, cell: real): (r: seq<NavCmd>)
    ensures |r| == |walls| / 2
  {
    seq(|walls| / 2, i requires 0 <= i < |walls| / 2 => WallBox(WallCell(walls[2 * i], walls[2 * i + 1], cell)))
  }

  /** The `i += 2` loop over the wall list. */
  method DrawWalls(walls: seq<real>, cell: real) returns (cmds: seq<NavCmd>)
    ensures cmds == WallCmds(walls, cell)
  {
    cmds := [];
    var i := 0;
    while i < |walls|
      invariant 0 <= i && i % 2 == 0 && i <= |walls| + 1
      invariant |cmds| == (if i <= |walls| then i / 2 else |walls| / 2)
      invariant forall j :: 0 <= j < |cmds| ==> cmds[j] == WallBox(WallCell(walls[2 * j], walls[2 * j + 1], cell))
      decreases |walls| - i
    {
      if i + 1 < |walls| {
        cmds := cmds + [WallBox(WallCell(walls[i], walls[i + 1], cell))];
      }
      i := i + 2;
    }
  }

  // ---------------------------------------------------------------------------
  // Arrows
  // ---------------------------------------------------------------------------

  function CellBox(a: NavArrow, cell: real): Rect
  {
    Rect(a.x - cell / 2.0, a.y - cell / 2.0, cell, cell)
  }

  function Unit(d: Heading): Point
  {
    match d
    case Up => Point(0.0, -1.0)
    case Down => Point(0.0, 1.0)
    case Left => Point(-1.0, 0.0)
    case Right => Point(1.0, 0.0)
  }

  /** The stroke for one heading: a shaft through the centre from tail to tip, arrowSize
      each way, and two wings back from the tip. */
  function ArrowStroke(d: Heading, c: Point, size: real): NavCmd
  {
    var half := size / 2.0;
    match d
    case Up => Stroke(Up, Point(c.x, c.y + size), Point(c.x, c.y - size), Point(c.x - half, c.y - half), Point(c.x + half, c.y - half))
    case Down => Stroke(Down, Point(c.x, c.y - size), Point(c.x, c.y + size), Point(c.x - half, c.y + half), Point(c.x + half, c.y + half))
    case Left => Stroke(Left, Point(c.x + size, c.y), Point(c.x - size, c.y), Point(c.x - half, c.y - half), Point(c.x - half, c.y + half))
    case Right => Stroke(Right, Point(c.x - size, c.y), Point(c.x + size, c.y), Point(c.x + half, c.y - half), Point(c.x + half, c.y + half))
  }

  /** Each stroke points its way: the tip is arrowSize from the centre along the heading,
      the tail opposite, and the two wings sit halfway back, mirror images across the
      shaft. */
  lemma ArrowStrokePointsItsWay(d: Heading, c: Point, size: real)
    ensures var s := ArrowStroke(d, c, size);
            var u := Unit(d);
            s.heading == d &&
            s.tip == Point(c.x + size * u.x, c.y + size * u.y) &&
            s.tail == Point(c.x - size * u.x, c.y - size * u.y) &&
            s.wing1.x + s.wing2.x == 2.0 * c.x + size * u.x &&
            s.wing1.y + s.wing2.y == 2.0 * c.y + size * u.y
  {
  }

  /** The strokes of one arrow cell: one per direction bit set, in the order up, down,
      left, right. */
  function GlyphCmds(a: NavArrow, cell: real): seq<NavCmd>
  {
    var c, size := Point(a.x, a.y), cell * 0.4;
    (if HasBit(a.dir, 0) then [ArrowStroke(Up, c, size)] else [])
    + (if HasBit(a.dir, 1) then [ArrowStroke(Down, c, size)] else [])
    + (if HasBit(a.dir, 2) then [ArrowStroke(Left, c, size)] else [])
    + (if HasBit(a.dir, 3) then [ArrowStroke(Right, c, size)] else [])
  }

  /** An arrow cell draws exactly one stroke for each of its set bits among 1, 2, 4 and
      8, and no stroke for a bit that is clear. */
  lemma OneStrokePerBit(a: NavArrow, cell: real, d: Heading)
    ensures (exists s :: s in GlyphCmds(a, cell) && s.heading == d) <==> HasBit(a.dir, HeadingBit(d))
    ensures |GlyphCmds(a, cell)| ==
            (if HasBit(a.dir, 0) then 1 else 0) + (if HasBit(a.dir, 1) then 1 else 0) +
            (if HasBit(a.dir, 2) then 1 else 0) + (if HasBit(a.dir, 3) then 1 else 0)
  {
    var c, size := Point(a.x, a.y), cell * 0.4;
    if HasBit(a.dir, HeadingBit(d)) {
      assert ArrowStroke(d, c, size) in GlyphCmds(a, cell);
    }
  }

  function ShadeCmds(arrows: seq<NavArrow>, cell: real): (r: seq<NavCmd>)
    ensures |r| == |arrows|
  {
    seq(|arrows|, i requires 0 <= i < |arrows| => CellShade(CellBox(arrows[i], cell)))
  }

  function AllGlyphs(arrows: seq<NavArrow>, cell: real): seq<NavCmd>
  {
    if arrows == [] then [] else AllGlyphs(DropLast(arrows), cell) + GlyphCmds(Last(arrows), cell)
  }

  /** The arrow section: every cell shaded, then, when details are shown, its strokes. */
  function ArrowCmds(arrows: seq<NavArrow>, cell: real, details: bool): seq<NavCmd>
  {
    ShadeCmds(arrows, cell) + (if details then AllGlyphs(arrows, cell) else [])
  }

  /** The two loops over the arrows. */
  method DrawArrows(arrows: seq<NavArrow>, cell: real, details: bool) returns (cmds: seq<NavCmd>)
    ensures cmds == ArrowCmds(arrows, cell, details)
  {
    var shades: seq<NavCmd> := [];
    var i := 0;
    while i < |arrows|
      invariant 0 <= i <= |arrows|
      invariant shades == ShadeCmds(arrows[..i], cell)
    {
      shades := shades + [CellShade(CellBox(arrows[i], cell))];
      i := i + 1;
    }
    assert arrows[..i] == arrows;
    cmds := shades;
    if details {
      var glyphs: seq<NavCmd> := [];
      i := 0;
      while i < |arrows|
        invariant 0 <= i <= |arrows|
        invariant glyphs == AllGlyphs(arrows[..i], cell)
      {
        assert DropLast(arrows[..i + 1]) == arrows[..i];
        glyphs := glyphs + GlyphCmds(arrows[i], cell);
        i := i + 1;
      }
      assert arrows[..i] == arrows;
      cmds := cmds + glyphs;
    }
  }

  // ---------------------------------------------------------------------------
  // Free cells
  // ---------------------------------------------------------------------------

  function FreeCmds(frees: seq<real>, cell: real): (r: seq<NavCmd>)
    ensures |r| == |frees| / 2
  {
    seq(|frees| / 2, i requires 0 <= i < |frees| / 2 => FreeDot(Point(frees[2 * i], frees[2 * i + 1]), cell * 0.45))
  }

  method DrawFrees(frees: seq<real>, cell: real) returns (cmds: seq<NavCmd>)
    ensures cmds == FreeCmds(frees, cell)
  {
    cmds := [];
    var i := 0;
    while i < |frees|
      invariant 0 <= i && i % 2 == 0 && i <= |frees| + 1
      invariant |cmds| == (if i <= |frees| then i / 2 else |frees| / 2)
      invariant forall j :: 0 <= j < |cmds| ==> cmds[j] == FreeDot(Point(frees[2 * j], frees[2 * j + 1]), cell * 0.45)
      decreases |frees| - i
    {
      if i + 1 < |frees| {
        cmds := cmds + [FreeDot(Point(frees[i], frees[i + 1]), cell * 0.45)];
      }
      i := i + 2;
    }
  }

  // ---------------------------------------------------------------------------
  // The frame
  // ---------------------------------------------------------------------------

  datatype NavState = NavState(walls: seq<real>, arrows: seq<NavArrow>, frees: seq<real>, cellSize: real,
                               tx: real, ty: real, k: real, layoutW: real, layoutH: real,
                               canvasW: nat, canvasH: nat)

  /** Whether the grid has anything to show. */
  predicate HasGrid(st: NavState)
  {
    |st.walls| > 0 || |st.arrows| > 0 || |st.frees| > 0
  }

  /** Arrow strokes and free cells are drawn only at a zoom above 0.5. */
  predicate ShowDetails(st: NavState)
  {
    st.k > 0.5
  }

  /** The drawing under the view transform: walls, arrow cells, and free cells. */
  function GridBody(st: NavState): seq<NavCmd>
  {
    WallCmds(st.walls, st.cellSize)
    + ArrowCmds(st.arrows, st.cellSize, ShowDetails(st))
    + (if ShowDetails(st) then FreeCmds(st.frees, st.cellSize) else [])
  }

  /** render: the canvas cleared; with grid data, the layout fitted and centred, the view
      transform at scale k * fitScale, and the grid. The model stops after the clear for a
      layout size that is not positive. */
  function NavFrame(st: NavState): seq<NavCmd>
  {
    var w, h := st.canvasW as real, st.canvasH as real;
    [Clear(w, h)]
    + (if !HasGrid(st) || st.layoutW <= 0.0 || st.layoutH <= 0.0 then []
       else
         var f := FitLayout(w, h, st.layoutW, st.layoutH);
         [Place(f.offsetX, f.offsetY, st.k * f.fitScale, Point(st.tx, st.ty))] + GridBody(st))
  }

  /** Without walls, arrows or free cells the frame is only the clear. */
  lemma EmptyGridClearsOnly(st: NavState)
    requires !HasGrid(st)
    ensures NavFrame(st) == [Clear(st.canvasW as real, st.canvasH as real)]
  {
  }

  /** At a zoom of 0.5 or less, no arrow stroke and no free cell is drawn. */
  lemma {:induction false} DetailsGate(st: NavState)
    requires !ShowDetails(st)
    ensures forall c :: c in NavFrame(st) ==> !c.Stroke? && !c.FreeDot?
  {
    assert GridBody(st) == WallCmds(st.walls, st.cellSize) + ShadeCmds(st.arrows, st.cellSize);
  }

  /** Above zoom 0.5, every set direction bit of every arrow cell has its stroke in the
      frame, and every complete free pair its dot. */
  lemma {:induction false} DetailsShown(st: NavState, i: nat, d: Heading)
    requires ShowDetails(st) && HasGrid(st) && st.layoutW > 0.0 && st.layoutH > 0.0
    requires i < |st.arrows| && HasBit(st.arrows[i].dir, HeadingBit(d))
    ensures ArrowStroke(d, Point(st.arrows[i].x, st.arrows[i].y), st.cellSize * 0.4) in NavFrame(st)
  {
    var a := st.arrows[i];
    var s := ArrowStroke(d, Point(a.x, a.y), st.cellSize * 0.4);
    OneStrokePerBit(a, st.cellSize, d);
    assert s in GlyphCmds(a, st.cellSize);
    GlyphsInAll(st.arrows, st.cellSize, i, s);
    assert s in ArrowCmds(st.arrows, st.cellSize, true);
    assert s in GridBody(st);
  }

  lemma {:induction false} GlyphsInAll(arrows: seq<NavArrow>, cell: real, i: nat, s: NavCmd)
    requires i < |arrows| && s in GlyphCmds(arrows[i], cell)
    ensures s in AllGlyphs(arrows, cell)
  {
    if i < |arrows| - 1 {
      assert DropLast(arrows)[i] == arrows[i];
      GlyphsInAll(DropLast(arrows), cell, i, s);
    }
  }

  /** The frame-building part of render. */
  method DrawNav(st: NavState) returns (cmds: seq<NavCmd>)
    ensures cmds == NavFrame(st)
  {
    var w, h := st.canvasW as real, st.canvasH as real;
    cmds := [Clear(w, h)];
    if |st.walls| == 0 && |st.arrows| == 0 && |st.frees| == 0 {
      assert !HasGrid(st);
      return;
    }
    if st.layoutW <= 0.0 || st.layoutH <= 0.0 {
      return;
    }
    var f := FitLayout(w, h, st.layoutW, st.layoutH);
    var details := st.k > 0.5;
    var walls: seq<NavCmd> := [];
    if |st.walls| > 0 {
      walls := DrawWalls(st.walls, st.cellSize);
    }
    var arrows: seq<NavCmd> := [];
    if |st.arrows| > 0 {
      arrows := DrawArrows(st.arrows, st.cellSize, details);
    }
    var frees: seq<NavCmd> := [];
    if |st.frees| > 0 && details {
      frees := DrawFrees(st.frees, st.cellSize);
    }
    assert walls == WallCmds(st.walls, st.cellSize);
    assert arrows == ArrowCmds(st.arrows, st.cellSize, details);
    assert frees == (if details then FreeCmds(st.frees, st.cellSize) else []);
    assert walls + arrows + frees == GridBody(st);
    cmds := cmds + ([Place(f.offsetX, f.offsetY, st.k * f.fitScale, Point(st.tx, st.ty))] + (walls + arrows + frees));
    assert HasGrid(st) && st.layoutW > 0.0 && st.layoutH > 0.0;
    assert NavFrame(st)[0] == Clear(w, h);
    assert NavFrame(st)[1] == Place(f.offsetX, f.offsetY, st.k * f.fitScale, Point(st.tx, st.ty));
    assert NavFrame(st)[2..] == GridBody(st);
  }

  // ---------------------------------------------------------------------------
  // The overlay object
  // ---------------------------------------------------------------------------

  class NavOverlay {
    var walls: seq<real>
    var arrows: seq<NavArrow>
    var frees: seq<real>
    var cellSize: real
    /** The view transform: the view box origin and the zoom. */
    var tx: real
    var ty: real
    var k: real
    var layoutW: real
    var layoutH: real
    /** Whether init found a canvas element. */
    var hasCanvas: bool
    var canvasW: nat
    var canvasH: nat
    /** What the canvas shows. */
    var screen: seq<NavCmd>
    /** A render queued with requestAnimationFrame and not yet run. */
    var framePending: bool

    function State(): NavState
      reads this
    {
      NavState(walls, arrows, frees, cellSize, tx, ty, k, layoutW, layoutH, canvasW, canvasH)
    }

    /** The object before init: no data, cell size 500, the identity view. */
    constructor ()
      ensures State() == NavState([], [], [], 500.0, 0.0, 0.0, 1.0, 0.0, 0.0, 0, 0)
      ensures !hasCanvas && screen == [] && !framePending
    {
      walls := [];
      arrows := [];
      frees := [];
      cellSize := 500.0;
      tx := 0.0;
      ty := 0.0;
      k := 1.0;
      layoutW := 0.0;
      layoutH := 0.0;
      hasCanvas := false;
      canvasW := 0;
      canvasH := 0;
      screen := [];
      framePending := false;
    }

    /** render. */
    method Render()
      modifies this
      ensures State() == old(State()) && hasCanvas == old(hasCanvas) && framePending == old(framePending)
      ensures screen == (if hasCanvas then NavFrame(State()) else old(screen))
    {
      if !hasCanvas {
        return;
      }
      screen := DrawNav(State());
    }

    /** resize: the canvas takes its parent's size, and is redrawn only if that changed
        it. The parent's size comes from getBoundingClientRect and may be fractional; the
        canvas keeps the whole part (the unsigned long conversion of the width setter), so
        a fractional parent size never compares equal and redraws on every call. */
    method Resize(parentW: real, parentH: real)
      requires parentW >= 0.0 && parentH >= 0.0
      modifies this
      ensures hasCanvas == old(hasCanvas) && framePending == old(framePending)
      ensures !hasCanvas ==> State() == old(State()) && screen == old(screen)
      ensures hasCanvas && parentW == old(canvasW) as real && parentH == old(canvasH) as real ==>
                State() == old(State()) && screen == old(screen)
      ensures hasCanvas && (parentW != old(canvasW) as real || parentH != old(canvasH) as real) ==>
                State() == old(State()).(canvasW := parentW.Floor, canvasH := parentH.Floor) && screen == NavFrame(State())
      ensures hasCanvas && (parentW.Floor as real != parentW || parentH.Floor as real != parentH) ==>
                screen == NavFrame(State())
    {
      if !hasCanvas {
        return;
      }
      if canvasW as real != parentW || canvasH as real != parentH {
        canvasW := parentW.Floor;
        canvasH := parentH.Floor;
        Render();
      }
    }

    /** init with a canvas element of the given current size inside a parent of the given
        size. */
    method Init(currentW: nat, currentH: nat, parentW: real, parentH: real, layoutWidth: real, layoutHeight: real)
      requires parentW >= 0.0 && parentH >= 0.0
      modifies this
      ensures hasCanvas && layoutW == layoutWidth && layoutH == layoutHeight
      ensures canvasW == parentW.Floor && canvasH == parentH.Floor
      ensures walls == old(walls) && arrows == old(arrows) && frees == old(frees) && cellSize == old(cellSize)
      ensures tx == old(tx) && ty == old(ty) && k == old(k) && framePending == old(framePending)
      ensures screen == (if parentW != currentW as real || parentH != currentH as real then NavFrame(State()) else old(screen))
    {
      hasCanvas := true;
      canvasW := currentW;
      canvasH := currentH;
      layoutW := layoutWidth;
      layoutH := layoutHeight;
      Resize(parentW, parentH);
    }

    /** updateGridData: the three lists are replaced, a missing one by an empty list, and
        the overlay is redrawn. */
    method UpdateGridData(newWalls: Option<seq<real>>, newArrows: Option<seq<NavArrow>>, newFrees: Option<seq<real>>, newCell: real)
      modifies this
      ensures walls == (if newWalls.Some? then newWalls.value else [])
      ensures arrows == (if newArrows.Some? then newArrows.value else [])
      ensures frees == (if newFrees.Some? then newFrees.value else [])
      ensures cellSize == newCell
      ensures State() == old(State()).(walls := walls, arrows := arrows, frees := frees, cellSize := newCell)
      ensures hasCanvas == old(hasCanvas) && framePending == old(framePending)
      ensures screen == (if hasCanvas then NavFrame(State()) else old(screen))
    {
      walls := if newWalls.Some? then newWalls.value else [];
      arrows := if newArrows.Some? then newArrows.value else [];
      frees := if newFrees.Some? then newFrees.value else [];
      cellSize := newCell;
      Render();
    }

    /** updateView: nothing happens when the transform is unchanged; otherwise the new
        transform is stored, the canvas follows its parent's size (redrawn at once when the
        size differs, otherwise kept until the queued render), and a render is queued. */
    method UpdateView(x: real, y: real, zoom: real, parentW: real, parentH: real)
      requires parentW >= 0.0 && parentH >= 0.0
      modifies this
      ensures x == old(tx) && y == old(ty) && zoom == old(k) ==>
                State() == old(State()) && screen == old(screen) && framePending == old(framePending)
      ensures !(x == old(tx) && y == old(ty) && zoom == old(k)) ==>
                tx == x && ty == y && k == zoom && framePending &&
                walls == old(walls) && arrows == old(arrows) && frees == old(frees) && cellSize == old(cellSize) &&
                layoutW == old(layoutW) && layoutH == old(layoutH) &&
                (hasCanvas ==> canvasW == parentW.Floor && canvasH == parentH.Floor) &&
                (!hasCanvas ==> canvasW == old(canvasW) && canvasH == old(canvasH)) &&
                screen == (if hasCanvas && (parentW != old(canvasW) as real || parentH != old(canvasH) as real)
                           then NavFrame(State()) else old(screen))
      ensures hasCanvas == old(hasCanvas)
    {
      if tx == x && ty == y && k == zoom {
        return;
      }
      tx := x;
      ty := y;
      k := zoom;
      Resize(parentW, parentH);
      framePending := true;
    }

    /** The render queued by updateView. */
    method AnimationFrame()
      modifies this
      ensures State() == old(State()) && !framePending && hasCanvas == old(hasCanvas)
      ensures screen == (if old(framePending) && hasCanvas then NavFrame(State()) else old(screen))
    {
      if framePending {
        Render();
      }
      framePending := false;
    }
  }
}
