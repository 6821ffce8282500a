/** The layout renderer object (window.layoutRenderer): the state the host pushes into it
    (layout data, hidden and invalid ids, view box, grid settings, flow path) and the frames
    its main canvas and minimap show after each update. */
module LayoutRendering {
  import opened Common
  import opened LayoutScene

  // ---------------------------------------------------------------------------
  // Hidden and invalid tables
  // ---------------------------------------------------------------------------

  /** The id lists of updateHiddenIds and updateInvalidItems; a missing list is empty. */
  datatype IdLists = IdLists(shelf: seq<int>, obstacle: seq<int>, column: seq<int>)

  function KeysOf(l: Layer, ids: seq<int>): set<string>
  {
    set id | id in ids :: HiddenKey(l, id)
  }

  /** The hidden table rebuilt from scratch from the three lists. */
  function HiddenTable(lists: IdLists): set<string>
  {
    KeysOf(Shelf, lists.shelf) + KeysOf(Obstacle, lists.obstacle) + KeysOf(Column, lists.column)
  }

  /** The invalid table rebuilt from scratch from the three lists. */
  function InvalidOf(lists: IdLists): InvalidTable
  {
    InvalidTable(set id | id in lists.shelf, set id | id in lists.obstacle, set id | id in lists.column)
  }

  /** The ids of each list of a rebuilt table, and nothing else. */
  function ListOf(lists: IdLists, l: Layer): seq<int>
  {
    match l
    case Shelf => lists.shelf
    case Obstacle => lists.obstacle
    case Column => lists.column
    case _ => []
  }

  /** No two (type, id) pairs share a hidden-table key. */
  lemma HiddenKeyInjective(l1: Layer, id1: int, l2: Layer, id2: int)
    requires HiddenKey(l1, id1) == HiddenKey(l2, id2)
    ensures l1 == l2 && id1 == id2
  {
    var k := HiddenKey(l1, id1);
    if l1 != l2 {
      KeysOfDifferentTypesDiffer(l1, id1, l2, id2);
      assert false;
    } else {
      var n := |LayerName(l1)| + 1;
      assert k[n..] == IntToString(id1);
      assert HiddenKey(l2, id2)[n..] == IntToString(id2);
      IntToStringInjective(id1, id2);
    }
  }

  lemma KeysOfDifferentTypesDiffer(l1: Layer, id1: int, l2: Layer, id2: int)
    requires l1 != l2
    ensures HiddenKey(l1, id1) != HiddenKey(l2, id2)
  {
    var k1, k2 := HiddenKey(l1, id1), HiddenKey(l2, id2);
    assert k1[0] == LayerName(l1)[0] && k1[1] == LayerName(l1)[1];
    assert k2[0] == LayerName(l2)[0] && k2[1] == LayerName(l2)[1];
  }

  /** After updateHiddenIds, an item is hidden exactly when its id is in its type's list;
      start and end areas are never hidden. */
  lemma HiddenIff(lists: IdLists, l: Layer, id: int)
    ensures HiddenKey(l, id) in HiddenTable(lists) <==> id in ListOf(lists, l)
  {
    var k := HiddenKey(l, id);
    if k in KeysOf(Shelf, lists.shelf) {
      var j :| j in lists.shelf && k == HiddenKey(Shelf, j);
      HiddenKeyInjective(l, id, Shelf, j);
    } else if k in KeysOf(Obstacle, lists.obstacle) {
      var j :| j in lists.obstacle && k == HiddenKey(Obstacle, j);
      HiddenKeyInjective(l, id, Obstacle, j);
    } else if k in KeysOf(Column, lists.column) {
      var j :| j in lists.column && k == HiddenKey(Column, j);
      HiddenKeyInjective(l, id, Column, j);
    }
  }

  /** After updateInvalidItems, an item is flagged exactly when its id is in its type's
      list; start and end areas are never flagged. */
  lemma InvalidIff(lists: IdLists, l: Layer, id: int)
    ensures IsInvalid(InvalidOf(lists), l, id) <==> id in ListOf(lists, l)
  {
  }

  /** The forEach that adds one list's keys to the table. */
  method AddKeys(table: set<string>, l: Layer, ids: seq<int>) returns (r: set<string>)
    ensures r == table + KeysOf(l, ids)
  {
    r := table;
    var i := 0;
    while i < |ids|
      invariant 0 <= i <= |ids|
      invariant r == table + KeysOf(l, ids[..i])
    {
      assert forall id :: id in ids[..i + 1] <==> id in ids[..i] || id == ids[i];
      r := r + {HiddenKey(l, ids[i])};
      i := i + 1;
    }
    assert ids[..i] == ids;
  }

  /** The forEach that flags one list's ids. */
  method AddIds(table: set<int>, ids: seq<int>) returns (r: set<int>)
    ensures r == table + set id | id in ids
  {
    r := table;
    var i := 0;
    while i < |ids|
      invariant 0 <= i <= |ids|
      invariant r == table + set id | id in ids[..i]
    {
      assert forall id :: id in ids[..i + 1] <==> id in ids[..i] || id == ids[i];
      r := r + {ids[i]};
      i := i + 1;
    }
    assert ids[..i] == ids;
  }

  // ---------------------------------------------------------------------------
  // Fit and letterbox
  // ---------------------------------------------------------------------------

  /** The transform of the main canvas: the scale and the offsets that centre the view. */
  datatype Fit = Fit(scale: real, offsetX: real, offsetY: real)

  /** render's fit of the view box into the canvas; None where the source divides by a
      zero view size. */
  function FitView(cw: real, ch: real, vb: Rect): (f: Option<Fit>)
    ensures f.None? <==> vb.w == 0.0 || vb.h == 0.0
  {
    if vb.w == 0.0 || vb.h == 0.0 then None
    else
      var scale := Min(cw / vb.w, ch / vb.h);
      Some(Fit(scale, (cw - vb.w * scale) / 2.0, (ch - vb.h * scale) / 2.0))
  }

  /** With a canvas and view of positive size, the view fills the canvas along one axis,
      fits inside along the other, and sits centred with margins of at least zero. */
  lemma FitLetterbox(cw: real, ch: real, vb: Rect)
    requires cw > 0.0 && ch > 0.0 && vb.w > 0.0 && vb.h > 0.0
    ensures var f := FitView(cw, ch, vb).value;
            f.scale > 0.0 &&
            vb.w * f.scale <= cw && vb.h * f.scale <= ch &&
            (vb.w * f.scale == cw || vb.h * f.scale == ch) &&
            f.offsetX >= 0.0 && f.offsetY >= 0.0 &&
            f.offsetX + vb.w * f.scale + f.offsetX == cw &&
            f.offsetY + vb.h * f.scale + f.offsetY == ch
  {
    var sx, sy := cw / vb.w, ch / vb.h;
    var s := Min(sx, sy);
    assert vb.w * sx == cw && vb.h * sy == ch;
    ScaleLe(s, sx, vb.w);
    ScaleLe(s, sy, vb.h);
    assert vb.w * s <= cw && vb.h * s <= ch;
  }

  /** The minimap's scale: the whole layout fits in the minimap canvas. */
  function MinimapScale(mw: real, mh: real, lw: real, lh: real): (s: real)
    requires mw >= 0.0 && mh >= 0.0 && lw > 0.0 && lh > 0.0
    ensures s >= 0.0 && lw * s <= mw && lh * s <= mh
    ensures lw * s == mw || lh * s == mh
  {
    var sx, sy := mw / lw, mh / lh;
    assert lw * sx == mw && lh * sy == mh;
    var s := Min(sx, sy);
    ScaleLe(s, sx, lw);
    ScaleLe(s, sy, lh);
    s
  }

  // ---------------------------------------------------------------------------
  // Grid
  // ---------------------------------------------------------------------------

  function VerticalLine(k: nat, size: real, h: real): Cmd
  {
    GridLine(Point((k as real) * size, 0.0), Point((k as real) * size, h))
  }

  function HorizontalLine(k: nat, size: real, w: real): Cmd
  {
    GridLine(Point(0.0, (k as real) * size), Point(w, (k as real) * size))
  }

  /** _drawGrid: vertical lines at every multiple of size from 0 to the layout width, then
      horizontal lines at every multiple up to the height. */
  function GridCmds(w: real, h: real, size: real): (r: seq<Cmd>)
    requires size > 0.0
    ensures forall c :: c in r ==> c.GridLine?
  {
    var nx := StepCount(w, size);
    var ny := StepCount(h, size);
    seq(nx, k requires 0 <= k < nx => VerticalLine(k, size, h))
    + seq(ny, k requires 0 <= k < ny => HorizontalLine(k, size, w))
  }

  /** The k-th vertical line lies at x = k * size and the k-th horizontal one at
      y = k * size; there is such a line exactly when that multiple is at most the width
      (height), so no multiple in range is missed. */
  lemma GridLinesAreMultiples(w: real, h: real, size: real, k: nat)
    requires size > 0.0
    ensures var nx, ny := StepCount(w, size), StepCount(h, size);
            |GridCmds(w, h, size)| == nx + ny &&
            (k < nx <==> (k as real) * size <= w) &&
            (k < ny <==> (k as real) * size <= h) &&
            (k < nx ==> GridCmds(w, h, size)[k] == VerticalLine(k, size, h)) &&
            (k < ny ==> GridCmds(w, h, size)[nx + k] == HorizontalLine(k, size, w))
  {
    StepCountExact(w, size, k);
    StepCountExact(h, size, k);
  }

  lemma LineIndex(i: nat, k: nat, size: real)
    requires size > 0.0 && (i as real) * size == (k as real) * size
    ensures i == k
  {
    if i < k {
      ScaleLt(i as real, k as real, size);
    } else if k < i {
      ScaleLt(k as real, i as real, size);
    }
  }

  /** The two for loops of _drawGrid. */
  method DrawGrid(w: real, h: real, size: real) returns (cmds: seq<Cmd>)
    requires size > 0.0
    ensures cmds == GridCmds(w, h, size)
  {
    var nx := StepCount(w, size);
    var xs: seq<Cmd> := [];
    var k: nat := 0;
    while (k as real) * size <= w
      invariant k <= nx
      invariant xs == seq(k, j requires 0 <= j < k => VerticalLine(j, size, h))
      decreases nx - k
    {
      StepCountExact(w, size, k);
      xs := xs + [VerticalLine(k, size, h)];
      k := k + 1;
    }
    StepCountExact(w, size, k);
    var ny := StepCount(h, size);
    var ys: seq<Cmd> := [];
    k := 0;
    while (k as real) * size <= h
      invariant k <= ny
      invariant ys == seq(k, j requires 0 <= j < k => HorizontalLine(j, size, w))
      decreases ny - k
    {
      StepCountExact(h, size, k);
      ys := ys + [HorizontalLine(k, size, w)];
      k := k + 1;
    }
    StepCountExact(h, size, k);
    cmds := xs + ys;
  }

  // ---------------------------------------------------------------------------
  // Flow path
  // ---------------------------------------------------------------------------

  function Midpoint(p: Point, q: Point): Point
  {
    Point((p.x + q.x) / 2.0, (p.y + q.y) / 2.0)
  }

  function Segments(ps: seq<Point>): (r: seq<(Point, Point)>)
    requires |ps| >= 1
    ensures |r| == |ps| - 1
  {
    seq(|ps| - 1, i requires 0 <= i < |ps| - 1 => (ps[i], ps[i + 1]))
  }

  function FlowLabels(ps: seq<Point>): (r: seq<Cmd>)
    requires |ps| >= 1
    ensures |r| == |ps| - 1
  {
    seq(|ps| - 1, i requires 0 <= i < |ps| - 1 => FlowLabel(NatToString(i + 1), Midpoint(ps[i], ps[i + 1])))
  }

  /** _drawFlowPath: nothing for fewer than two points; otherwise the outlined and the
      coloured polyline, one label per segment, and the start marker on the first point. */
  function FlowCmds(ps: seq<Point>): (r: seq<Cmd>)
    ensures r != [] <==> |ps| >= 2
    ensures |ps| >= 2 ==> r[|r| - 1] == FlowStart(ps[0])
    ensures forall c :: c in r ==> c.FlowLine? || c.FlowLabel? || c.FlowStart?
  {
    if |ps| < 2 then []
    else [FlowLine(true, Segments(ps)), FlowLine(false, Segments(ps))] + FlowLabels(ps) + [FlowStart(ps[0])]
  }

  /** Segment i carries the label i + 1, halfway between its two points. */
  lemma FlowLabelsNumberSegments(ps: seq<Point>, i: nat)
    requires |ps| >= 2 && i < |ps| - 1
    ensures var c := FlowCmds(ps)[2 + i];
            c.FlowLabel? && IsDigits(c.text) && ParseNat(c.text) == i + 1 &&
            c.at.x - ps[i].x == ps[i + 1].x - c.at.x && c.at.y - ps[i].y == ps[i + 1].y - c.at.y
  {
    var t := NatToString(i + 1);
    var c := FlowLabel(t, Midpoint(ps[i], ps[i + 1]));
    assert FlowLabels(ps)[i] == c;
    assert FlowCmds(ps)[2 + i] == c;
    ParseNatToString(i + 1);
  }

  /** No two segments share a label. */
  lemma FlowLabelsDistinct(ps: seq<Point>, i: nat, j: nat)
    requires |ps| >= 2 && i < j < |ps| - 1
    ensures FlowLabels(ps)[i].text != FlowLabels(ps)[j].text
  {
    assert FlowLabels(ps)[i].text == NatToString(i + 1);
    assert FlowLabels(ps)[j].text == NatToString(j + 1);
    ParseNatToString(i + 1);
    ParseNatToString(j + 1);
  }

  /** The label loop of _drawFlowPath, with the other passes around it. */
  method DrawFlowPath(ps: seq<Point>) returns (cmds: seq<Cmd>)
    ensures cmds == FlowCmds(ps)
  {
    if |ps| < 2 {
      return [];
    }
    var labels: seq<Cmd> := [];
    var i := 0;
    while i < |ps| - 1
      invariant 0 <= i <= |ps| - 1
      invariant labels == FlowLabels(ps)[..i]
    {
      labels := labels + [FlowLabel(NatToString(i + 1), Midpoint(ps[i], ps[i + 1]))];
      i := i + 1;
    }
    cmds := [FlowLine(true, Segments(ps)), FlowLine(false, Segments(ps))] + labels + [FlowStart(ps[0])];
  }

  // ---------------------------------------------------------------------------
  // Frames
  // ---------------------------------------------------------------------------

  /** Everything the two frames depend on. */
  datatype RenderState = RenderState(
    data: Option<Layout>, hidden: set<string>, invalid: InvalidTable,
    viewBox: Rect, layoutW: real, layoutH: real,
    gridEnabled: bool, gridSize: real, flow: seq<Point>,
    canvasW: nat, canvasH: nat, minimapW: nat, minimapH: nat)

  /** render: the cleared canvas, then, under the fitted transform, the layout background,
      the grid, the scene and the flow path. A degenerate fit (zero or negative scale)
      stops after the clear. */
  function MainFrame(st: RenderState): seq<Cmd>
    requires st.data.Some?
  {
    var cw, ch := st.canvasW as real, st.canvasH as real;
    var f := FitView(cw, ch, st.viewBox);
    [ClearScreen(cw, ch)]
    + (if f.None? || f.value.scale <= 0.0 then []
       else
         [PlaceView(f.value.offsetX, f.value.offsetY, f.value.scale, Point(st.viewBox.x, st.viewBox.y)),
          Background(st.layoutW, st.layoutH)]
         + ViewCmds(st, f.value))
  }

  /** renderMinimap: the minimap background, then, for a layout of positive size, the
      scene scaled to fit without aisles, zones or outlines. */
  function MinimapFrame(st: RenderState): seq<Cmd>
    requires st.data.Some?
  {
    var mw, mh := st.minimapW as real, st.minimapH as real;
    [FillCanvas(mw, mh)]
    + (if st.layoutW <= 0.0 || st.layoutH <= 0.0 then []
       else
         var s := MinimapScale(mw, mh, st.layoutW, st.layoutH);
         [ScaleView(s)] + SceneCmds(st.data.value, st.hidden, st.invalid, s, true))
  }

  /** The minimap of a layout with no positive size is only its background. */
  lemma MinimapOfEmptyLayout(st: RenderState)
    requires st.data.Some? && (st.layoutW <= 0.0 || st.layoutH <= 0.0)
    ensures MinimapFrame(st) == [FillCanvas(st.minimapW as real, st.minimapH as real)]
  {
  }

  /** The fitted part of the main frame. */
  function ViewCmds(st: RenderState, f: Fit): seq<Cmd>
    requires st.data.Some? && f.scale > 0.0
  {
    (if st.gridEnabled && st.gridSize > 0.0 then GridCmds(st.layoutW, st.layoutH, st.gridSize) else [])
    + SceneCmds(st.data.value, st.hidden, st.invalid, f.scale, false)
    + FlowCmds(st.flow)
  }

  /** Commands that are neither grid lines nor the flow path's start marker. */
  predicate NoGridOrFlow(cs: seq<Cmd>)
  {
    forall c :: c in cs ==> !c.GridLine? && !c.FlowStart?
  }

  lemma NoGridOrFlowConcat(xs: seq<Cmd>, ys: seq<Cmd>)
    requires NoGridOrFlow(xs) && NoGridOrFlow(ys)
    ensures NoGridOrFlow(xs + ys)
  {
  }

  /** In the fitted view, grid lines appear only when the grid is enabled with a positive
      size. */
  lemma ViewGridGate(st: RenderState, f: Fit)
    requires st.data.Some? && f.scale > 0.0
    requires !(st.gridEnabled && st.gridSize > 0.0)
    ensures forall c :: c in ViewCmds(st, f) ==> !c.GridLine?
  {
    var scene := SceneCmds(st.data.value, st.hidden, st.invalid, f.scale, false);
    var flow := FlowCmds(st.flow);
    assert ViewCmds(st, f) == scene + flow;
    SceneHasNoGridOrFlow(st.data.value, st.hidden, st.invalid, f.scale);
  }

  /** The flow path's start marker is in the fitted view exactly when the path has two
      points or more. */
  lemma ViewFlowGate(st: RenderState, f: Fit)
    requires st.data.Some? && f.scale > 0.0
    ensures |st.flow| >= 2 ==> FlowStart(st.flow[0]) in ViewCmds(st, f)
    ensures |st.flow| < 2 ==> forall c :: c in ViewCmds(st, f) ==> !c.FlowStart?
  {
    var g := if st.gridEnabled && st.gridSize > 0.0 then GridCmds(st.layoutW, st.layoutH, st.gridSize) else [];
    var scene := SceneCmds(st.data.value, st.hidden, st.invalid, f.scale, false);
    var flow := FlowCmds(st.flow);
    assert ViewCmds(st, f) == g + scene + flow;
    if |st.flow| >= 2 {
      assert flow[|flow| - 1] in flow;
    } else {
      SceneHasNoGridOrFlow(st.data.value, st.hidden, st.invalid, f.scale);
      assert forall c :: c in g ==> c.GridLine?;
      assert flow == [];
    }
  }

  lemma {:induction false} SceneHasNoGridOrFlow(d: Layout, hidden: set<string>, invalid: InvalidTable, scale: real)
    requires scale > 0.0
    ensures NoGridOrFlow(SceneCmds(d, hidden, invalid, scale, false))
  {
    var ps := LayerPass(Start, hidden, invalid, scale, false);
    var pe := LayerPass(End, hidden, invalid, scale, false);
    var po := LayerPass(Obstacle, hidden, invalid, scale, false);
    var pc := LayerPass(Column, hidden, invalid, scale, false);
    var pl := LayerPass(Shelf, hidden, invalid, scale, false);
    var w := WallCmds(d.wall);
    var s := ItemsCmds(d.startAreas, ps);
    var e := ItemsCmds(d.endAreas, pe);
    var o := ItemsCmds(d.obstacles, po);
    var c := ItemsCmds(d.columns, pc);
    var l := ItemsCmds(d.shelves, pl);
    var rest := AisleSection(d, scale);
    ItemsStayInLayer(d.startAreas, ps);
    ItemsStayInLayer(d.endAreas, pe);
    ItemsStayInLayer(d.obstacles, po);
    ItemsStayInLayer(d.columns, pc);
    ItemsStayInLayer(d.shelves, pl);
    AisleSectionHasNoBoxes(d, scale);
    assert NoGridOrFlow(w) && NoGridOrFlow(s) && NoGridOrFlow(e) && NoGridOrFlow(o);
    assert NoGridOrFlow(c) && NoGridOrFlow(l) && NoGridOrFlow(rest);
    NoGridOrFlowConcat(w, s);
    NoGridOrFlowConcat(w + s, e);
    NoGridOrFlowConcat(w + s + e, o);
    NoGridOrFlowConcat(w + s + e + o, c);
    NoGridOrFlowConcat(w + s + e + o + c, l);
    NoGridOrFlowConcat(w + s + e + o + c + l, rest);
    assert SceneCmds(d, hidden, invalid, scale, false) == w + s + e + o + c + l + rest;
  }

  /** The fitted part of render. */
  method DrawView(st: RenderState, f: Fit) returns (cmds: seq<Cmd>)
    requires st.data.Some? && f.scale > 0.0
    ensures cmds == ViewCmds(st, f)
  {
    cmds := [];
    if st.gridEnabled && st.gridSize > 0.0 {
      cmds := DrawGrid(st.layoutW, st.layoutH, st.gridSize);
    }
    var s := DrawScene(st.data.value, st.hidden, st.invalid, f.scale, false);
    var p := DrawFlowPath(st.flow);
    cmds := cmds + s + p;
  }

  /** render, once there is data. */
  method DrawMain(st: RenderState) returns (cmds: seq<Cmd>)
    requires st.data.Some?
    ensures cmds == MainFrame(st)
  {
    var cw, ch := st.canvasW as real, st.canvasH as real;
    cmds := [ClearScreen(cw, ch)];
    var f := FitView(cw, ch, st.viewBox);
    if f.Some? && f.value.scale > 0.0 {
      var v := DrawView(st, f.value);
      cmds := cmds + [PlaceView(f.value.offsetX, f.value.offsetY, f.value.scale, Point(st.viewBox.x, st.viewBox.y)),
                      Background(st.layoutW, st.layoutH)] + v;
    }
  }

  /** renderMinimap, once there is data. */
  method DrawMinimap(st: RenderState) returns (cmds: seq<Cmd>)
    requires st.data.Some?
    ensures cmds == MinimapFrame(st)
  {
    var mw, mh := st.minimapW as real, st.minimapH as real;
    cmds := [FillCanvas(mw, mh)];
    if st.layoutW > 0.0 && st.layoutH > 0.0 {
      var s := MinimapScale(mw, mh, st.layoutW, st.layoutH);
      var scene := DrawScene(st.data.value, st.hidden, st.invalid, s, true);
      cmds := cmds + ([ScaleView(s)] + scene);
    }
  }

  // ---------------------------------------------------------------------------
  // The renderer object
  // ---------------------------------------------------------------------------

  class Renderer {
    var data: Option<Layout>
    /** hiddenIds: the keys "type-id" of hidden items. */
    var hidden: set<string>
    var invalid: InvalidTable
    var viewBox: Rect
    var layoutW: real
    var layoutH: real
    var gridEnabled: bool
    var gridSize: real
    /** The flow path's points; no path is an empty one. */
    var flow: seq<Point>
    var canvasW: nat
    var canvasH: nat
    /** Whether initMinimap has given the renderer a minimap canvas. */
    var hasMinimap: bool
    var minimapW: nat
    var minimapH: nat
    /** What the main canvas and the minimap show. */
    var screen: seq<Cmd>
    var minimap: seq<Cmd>
    /** A requestAnimationFrame render queued by updateViewport and not yet run. */
    var framePending: bool

    function State(): RenderState
      reads this
    {
      RenderState(data, hidden, invalid, viewBox, layoutW, layoutH, gridEnabled, gridSize, flow,
                  canvasW, canvasH, minimapW, minimapH)
    }

    /** The screen after render(): unchanged before any data arrives. */
    function Rendered(old_screen: seq<Cmd>): seq<Cmd>
      reads this
    {
      if data.Some? then MainFrame(State()) else old_screen
    }

    /** The minimap after renderMinimap(): unchanged without a minimap or data. */
    function MinimapRendered(old_minimap: seq<Cmd>): seq<Cmd>
      reads this
    {
      if hasMinimap && data.Some? then MinimapFrame(State()) else old_minimap
    }

    /** init: the view box is the whole layout, the canvas takes its parent's size, and
        nothing is drawn before data arrives. */
    constructor (parentW: nat, parentH: nat, layoutWidth: real, layoutHeight: real)
      ensures State() == RenderState(None, {}, InvalidTable({}, {}, {}), Rect(0.0, 0.0, layoutWidth, layoutHeight),
                                     layoutWidth, layoutHeight, true, 1000.0, [], parentW, parentH, 0, 0)
      ensures !hasMinimap && screen == [] && minimap == [] && !framePending
    {
      data := None;
      hidden := {};
      invalid := InvalidTable({}, {}, {});
      viewBox := Rect(0.0, 0.0, layoutWidth, layoutHeight);
      layoutW := layoutWidth;
      layoutH := layoutHeight;
      gridEnabled := true;
      gridSize := 1000.0;
      flow := [];
      canvasW := parentW;
      canvasH := parentH;
      hasMinimap := false;
      minimapW := 0;
      minimapH := 0;
      screen := [];
      minimap := [];
      framePending := false;
    }

    /** render. */
    method Render()
      modifies this
      ensures State() == old(State()) && hasMinimap == old(hasMinimap) && minimap == old(minimap)
      ensures framePending == old(framePending)
      ensures screen == Rendered(old(screen))
    {
      if data.None? {
        return;
      }
      screen := DrawMain(State());
    }

    /** renderMinimap. */
    method RenderMinimap()
      modifies this
      ensures State() == old(State()) && hasMinimap == old(hasMinimap) && screen == old(screen)
      ensures framePending == old(framePending)
      ensures minimap == MinimapRendered(old(minimap))
    {
      if !hasMinimap || data.None? {
        return;
      }
      minimap := DrawMinimap(State());
    }

    /** updateData: the new data; the layout size follows it when both of its sizes are
        non-zero; the view box is kept. */
    method UpdateData(d: Layout)
      modifies this
      ensures data == Some(d)
      ensures d.xSize != 0.0 && d.ySize != 0.0 ==> layoutW == d.xSize && layoutH == d.ySize
      ensures !(d.xSize != 0.0 && d.ySize != 0.0) ==> layoutW == old(layoutW) && layoutH == old(layoutH)
      ensures viewBox == old(viewBox) && hidden == old(hidden) && invalid == old(invalid) && flow == old(flow)
      ensures gridEnabled == old(gridEnabled) && gridSize == old(gridSize)
      ensures canvasW == old(canvasW) && canvasH == old(canvasH) && minimapW == old(minimapW) && minimapH == old(minimapH)
      ensures hasMinimap == old(hasMinimap) && minimap == old(minimap) && framePending == old(framePending)
      ensures screen == MainFrame(State())
    {
      data := Some(d);
      if d.xSize != 0.0 && d.ySize != 0.0 {
        layoutW := d.xSize;
        layoutH := d.ySize;
      }
      Render();
    }

    /** updateHiddenIds: a null argument changes nothing; otherwise the table is rebuilt
        from the three lists and both views are redrawn. */
    method UpdateHiddenIds(lists: Option<IdLists>)
      modifies this
      ensures lists.None? ==> State() == old(State()) && screen == old(screen) && minimap == old(minimap)
      ensures lists.Some? ==> State() == old(State()).(hidden := HiddenTable(lists.value))
      ensures lists.Some? ==> screen == Rendered(old(screen)) && minimap == MinimapRendered(old(minimap))
      ensures hasMinimap == old(hasMinimap) && framePending == old(framePending)
    {
      if lists.None? {
        return;
      }
      var t := AddKeys({}, Shelf, lists.value.shelf);
      t := AddKeys(t, Obstacle, lists.value.obstacle);
      t := AddKeys(t, Column, lists.value.column);
      hidden := t;
      Render();
      RenderMinimap();
    }

    /** updateInvalidItems: a null argument changes nothing; otherwise the three tables
        are rebuilt from the lists and both views are redrawn. */
    method UpdateInvalidItems(lists: Option<IdLists>)
      modifies this
      ensures lists.None? ==> State() == old(State()) && screen == old(screen) && minimap == old(minimap)
      ensures lists.Some? ==> State() == old(State()).(invalid := InvalidOf(lists.value))
      ensures lists.Some? ==> screen == Rendered(old(screen)) && minimap == MinimapRendered(old(minimap))
      ensures hasMinimap == old(hasMinimap) && framePending == old(framePending)
    {
      if lists.None? {
        return;
      }
      var s := AddIds({}, lists.value.shelf);
      var o := AddIds({}, lists.value.obstacle);
      var c := AddIds({}, lists.value.column);
      invalid := InvalidTable(s, o, c);
      Render();
      RenderMinimap();
    }

    /** updateViewport: the new view box, drawn on the next animation frame. */
    method UpdateViewport(x: real, y: real, w: real, h: real)
      modifies this
      ensures State() == old(State()).(viewBox := Rect(x, y, w, h))
      ensures framePending && screen == old(screen) && minimap == old(minimap) && hasMinimap == old(hasMinimap)
    {
      viewBox := Rect(x, y, w, h);
      framePending := true;
    }

    /** The animation frame queued by updateViewport. */
    method AnimationFrame()
      modifies this
      ensures State() == old(State()) && !framePending && minimap == old(minimap) && hasMinimap == old(hasMinimap)
      ensures screen == (if old(framePending) then Rendered(old(screen)) else old(screen))
    {
      if framePending {
        Render();
      }
      framePending := false;
    }

    /** updateFlowPath: the new path (none is empty), then a redraw. */
    method UpdateFlowPath(path: Option<seq<Point>>)
      modifies this
      ensures State() == old(State()).(flow := if path.Some? then path.value else [])
      ensures screen == Rendered(old(screen)) && minimap == old(minimap)
      ensures hasMinimap == old(hasMinimap) && framePending == old(framePending)
    {
      flow := if path.Some? then path.value else [];
      Render();
    }

    /** updateGridConfig. */
    method UpdateGridConfig(enabled: bool, size: real)
      modifies this
      ensures State() == old(State()).(gridEnabled := enabled, gridSize := size)
      ensures screen == Rendered(old(screen)) && minimap == old(minimap)
      ensures hasMinimap == old(hasMinimap) && framePending == old(framePending)
    {
      gridEnabled := enabled;
      gridSize := size;
      Render();
    }

    /** initMinimap. */
    method InitMinimap(w: nat, h: nat)
      modifies this
      ensures State() == old(State()).(minimapW := w, minimapH := h)
      ensures hasMinimap && minimap == MinimapRendered(old(minimap)) && screen == old(screen)
      ensures framePending == old(framePending)
    {
      hasMinimap := true;
      minimapW := w;
      minimapH := h;
      RenderMinimap();
    }

    /** resize: the canvas takes its parent's new size and both views are redrawn. */
    method Resize(parentW: nat, parentH: nat)
      modifies this
      ensures State() == old(State()).(canvasW := parentW, canvasH := parentH)
      ensures screen == Rendered(old(screen)) && minimap == MinimapRendered(old(minimap))
      ensures hasMinimap == old(hasMinimap) && framePending == old(framePending)
    {
      canvasW := parentW;
      canvasH := parentH;
      Render();
      RenderMinimap();
    }
  }
}
