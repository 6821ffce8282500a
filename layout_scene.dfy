/** The static scene of the layout renderer (layoutRenderer._drawScene): the draw commands
    for the wall outline, the start and end areas, obstacles, columns and shelves, and, in
    the main view only, the aisles and zones. Canvas calls become a list of draw commands;
    colours, line widths and dash patterns are not part of a command, except where the
    source chooses a colour by state (an invalid item). */
module LayoutScene {
  import opened Common

  // ---------------------------------------------------------------------------
  // Layout data (the parsed JSON of updateData); a missing list is an empty one
  // ---------------------------------------------------------------------------

  /** The element type a list is drawn under; its name forms the hidden-table key. */
  datatype Layer = Start | End | Obstacle | Column | Shelf

  function LayerName(l: Layer): (s: string)
    ensures |s| >= 3
  {
    match l
    case Start => "start"
    case End => "end"
    case Obstacle => "obstacle"
    case Column => "column"
    case Shelf => "shelf"
  }

  /** A walkway through an obstacle: direction 0 is a vertical passage at x = at, any other
      a horizontal one at y = at. */
  datatype Passage = Passage(direction: int, at: real)

  /** An area, obstacle, column or shelf: its id, outline points, facing (1 top, 2 right,
      3 bottom, 4 left), name and passages. */
  datatype Item = Item(id: int, coord: seq<Point>, facing: int, name: string, passages: seq<Passage>)

  /** An aisle's AreaNumber property: absent from the object, null, or a number. */
  datatype AreaNumber = Undefined | Null | Number(value: int)

  datatype Aisle = Aisle(area: Rect, direction: int, name: string, areaNumber: AreaNumber)

  /** A connection from a zone to the zone with id `id`, drawn at `at`. */
  datatype Link = Link(id: int, at: Point)

  datatype Zone = Zone(id: int, area: Rect, links: seq<Link>)

  datatype Layout = Layout(xSize: real, ySize: real, wall: seq<Point>,
                           startAreas: seq<Item>, endAreas: seq<Item>, obstacles: seq<Item>,
                           columns: seq<Item>, shelves: seq<Item>, aisles: seq<Aisle>, zones: seq<Zone>)

  // ---------------------------------------------------------------------------
  // Lookup tables
  // ---------------------------------------------------------------------------

  /** The key of an item in the hidden table: "type-id". */
  function HiddenKey(l: Layer, id: int): (k: string)
    ensures |k| > |LayerName(l)|
  {
    LayerName(l) + "-" + IntToString(id)
  }

  /** Ids flagged invalid, per type; start and end areas have no table. */
  datatype InvalidTable = InvalidTable(shelf: set<int>, obstacle: set<int>, column: set<int>)

  function IsInvalid(t: InvalidTable, l: Layer, id: int): (b: bool)
    ensures l.Start? || l.End? ==> !b
  {
    match l
    case Shelf => id in t.shelf
    case Obstacle => id in t.obstacle
    case Column => id in t.column
    case _ => false
  }

  // ---------------------------------------------------------------------------
  // Draw commands
  // ---------------------------------------------------------------------------

  /** Aisle arrow glyphs, as drawn before any rotation. */
  datatype Glyph = ArrowUp | ArrowDown | ArrowLeft | ArrowRight | ArrowUpDown | ArrowLeftRight | ArrowFourWay

  datatype Cmd =
    | ClearScreen(width: real, height: real)
    | PlaceView(offsetX: real, offsetY: real, scale: real, origin: Point)
    | FillCanvas(width: real, height: real)
    | ScaleView(scale: real)
    | Background(width: real, height: real)
    | GridLine(from: Point, to: Point)
    | WallShade(points: seq<Point>)
    | WallStroke(points: seq<Point>)
    | FillBox(layer: Layer, box: Rect, invalid: bool)
    | AreaTriangle(corner: Point, side: real)
    | StrokeBox(layer: Layer, box: Rect, invalid: bool)
    | FacingEdge(from: Point, to: Point)
    | ShelfName(name: string, center: Point, vertical: bool, fontSize: real)
    | ColumnCross(box: Rect)
    | Hatch(from: Point, to: Point)
    | PassageFloor(area: Rect)
    | AisleFloor(area: Rect)
    | AisleCenterLine(from: Point, to: Point)
    | AisleArrow(glyph: Glyph, center: Point, vertical: bool)
    | AisleName(name: string, center: Point)
    | AisleNumber(text: string, center: Point)
    | ZoneBox(area: Rect)
    | ConnectorDot(at: Point)
    | ConnectorLabel(text: string, at: Point)
    | ZoneLabel(text: string, at: Point)
    | FlowLine(outline: bool, segments: seq<(Point, Point)>)
    | FlowLabel(text: string, at: Point)
    | FlowStart(at: Point)

  /** Everything one drawRects / drawObstacleRects call depends on. The main pass runs at
      a positive scale; the minimap's scale is never negative. */
  datatype Pass = Pass(layer: Layer, hidden: set<string>, invalid: InvalidTable, scale: real, minimap: bool)

  type DrawPass = p: Pass | p.scale >= 0.0 && (p.minimap || p.scale > 0.0)
    witness Pass(Start, {}, InvalidTable({}, {}, {}), 1.0, false)

  // ---------------------------------------------------------------------------
  // Bounding boxes
  // ---------------------------------------------------------------------------

  datatype Box = Box(minX: real, minY: real, maxX: real, maxY: real)

  function BoxRect(b: Box): Rect
  {
    Rect(b.minX, b.minY, b.maxX - b.minX, b.maxY - b.minY)
  }

  /** The box of a list of points, folded from the first point on. */
  function Bounds(cs: seq<Point>): (b: Box)
    requires |cs| > 0
  {
    if |cs| == 1 then Box(cs[0].x, cs[0].y, cs[0].x, cs[0].y)
    else
      var b := Bounds(DropLast(cs));
      var p := Last(cs);
      Box(Min(b.minX, p.x), Min(b.minY, p.y), Max(b.maxX, p.x), Max(b.maxY, p.y))
  }

  /** The box holds every point, and each of its four bounds is reached by some point, so
      no smaller box holds them all. */
  lemma {:induction false} BoundsTight(cs: seq<Point>)
    requires |cs| > 0
    ensures var b := Bounds(cs);
            (forall i :: 0 <= i < |cs| ==> b.minX <= cs[i].x <= b.maxX && b.minY <= cs[i].y <= b.maxY) &&
            (exists i :: 0 <= i < |cs| && cs[i].x == b.minX) &&
            (exists i :: 0 <= i < |cs| && cs[i].x == b.maxX) &&
            (exists i :: 0 <= i < |cs| && cs[i].y == b.minY) &&
            (exists i :: 0 <= i < |cs| && cs[i].y == b.maxY)
  {
    if |cs| > 1 {
      var ys := DropLast(cs);
      BoundsTight(ys);
      assert forall i :: 0 <= i < |ys| ==> ys[i] == cs[i];
      var b0 := Bounds(ys);
      var i1 :| 0 <= i1 < |ys| && ys[i1].x == b0.minX;
      var i2 :| 0 <= i2 < |ys| && ys[i2].x == b0.maxX;
      var i3 :| 0 <= i3 < |ys| && ys[i3].y == b0.minY;
      var i4 :| 0 <= i4 < |ys| && ys[i4].y == b0.maxY;
      var n := |cs| - 1;
      var b := Bounds(cs);
      assert cs[if cs[n].x < b0.minX then n else i1].x == b.minX;
      assert cs[if cs[n].x > b0.maxX then n else i2].x == b.maxX;
      assert cs[if cs[n].y < b0.minY then n else i3].y == b.minY;
      assert cs[if cs[n].y > b0.maxY then n else i4].y == b.maxY;
    }
  }

  /** The min/max loop over an item's coordinates. */
  method ComputeBounds(cs: seq<Point>) returns (b: Box)
    requires |cs| > 0
    ensures b == Bounds(cs)
  {
    b := Box(cs[0].x, cs[0].y, cs[0].x, cs[0].y);
    var i := 1;
    while i < |cs|
      invariant 1 <= i <= |cs|
      invariant b == Bounds(cs[..i])
    {
      assert DropLast(cs[..i + 1]) == cs[..i];
      var p := cs[i];
      ghost var next := Box(Min(b.minX, p.x), Min(b.minY, p.y), Max(b.maxX, p.x), Max(b.maxY, p.y));
      assert next == Bounds(cs[..i + 1]);
      if p.x < b.minX { b := b.(minX := p.x); }
      if p.y < b.minY { b := b.(minY := p.y); }
      if p.x > b.maxX { b := b.(maxX := p.x); }
      if p.y > b.maxY { b := b.(maxY := p.y); }
      assert b == next;
      i := i + 1;
    }
    assert cs[..i] == cs;
  }

  // ---------------------------------------------------------------------------
  // Counted loops: `for (v = 0; v <= limit; v += step)`
  // ---------------------------------------------------------------------------

  /** How many multiples of step, from 0, are at most limit. */
  function StepCount(limit: real, step: real): (n: nat)
    requires step > 0.0
    ensures (n as real) * step > limit
    ensures n > 0 ==> ((n - 1) as real) * step <= limit
  {
    if limit < 0.0 then 0
    else
      var q := limit / step;
      var f := q.Floor;
      assert q == limit / step;
      assert f as real <= q < f as real + 1.0;
      ScaleLe(f as real, q, step);
      ScaleLt(q, f as real + 1.0, step);
      f + 1
  }

  lemma ScaleLe(a: real, b: real, s: real)
    requires s > 0.0 && a <= b
    ensures a * s <= b * s
  {
  }

  lemma ScaleLt(a: real, b: real, s: real)
    requires s > 0.0 && a < b
    ensures a * s < b * s
  {
  }

  /** Every multiple of step in [0, limit] is counted, and only those. */
  lemma {:induction false} StepCountExact(limit: real, step: real, k: nat)
    requires step > 0.0
    ensures k < StepCount(limit, step) <==> (k as real) * step <= limit
  {
    var n := StepCount(limit, step);
    if k < n {
      ScaleLe(k as real, (n - 1) as real, step);
    } else {
      ScaleLe(n as real, k as real, step);
    }
  }

  // ---------------------------------------------------------------------------
  // Wall outline
  // ---------------------------------------------------------------------------

  function WallCmds(wall: seq<Point>): (r: seq<Cmd>)
    ensures r != [] <==> |wall| > 1
  {
    if |wall| > 1 then [WallShade(wall), WallStroke(wall)] else []
  }

  // ---------------------------------------------------------------------------
  // Areas and shelves (drawRects)
  // ---------------------------------------------------------------------------

  /** The side of a shelf its Facing names: 1 top, 2 right, 3 bottom, 4 left. */
  function FacingSide(b: Box, facing: int): (r: Option<(Point, Point)>)
    ensures r.Some? <==> 1 <= facing <= 4
    ensures facing == 1 || facing == 3 ==> r.value.0.y == r.value.1.y && r.value.1.x - r.value.0.x == b.maxX - b.minX
    ensures facing == 2 || facing == 4 ==> r.value.0.x == r.value.1.x && r.value.1.y - r.value.0.y == b.maxY - b.minY
    ensures facing == 1 ==> r.value.0.y == b.minY
    ensures facing == 3 ==> r.value.0.y == b.maxY
    ensures facing == 2 ==> r.value.0.x == b.maxX
    ensures facing == 4 ==> r.value.0.x == b.minX
  {
    if facing == 1 then Some((Point(b.minX, b.minY), Point(b.maxX, b.minY)))
    else if facing == 2 then Some((Point(b.maxX, b.minY), Point(b.maxX, b.maxY)))
    else if facing == 3 then Some((Point(b.minX, b.maxY), Point(b.maxX, b.maxY)))
    else if facing == 4 then Some((Point(b.minX, b.minY), Point(b.minX, b.maxY)))
    else None
  }

  /** The font size of a shelf name: 12 screen pixels, at most 80% of the shelf's short
      side, and shrunk so that the estimated text width (0.6 of the size per character)
      fits in 90% of the long side. */
  function ShelfFont(len: nat, fitW: real, fitH: real, scale: real): (f: real)
    requires len > 0 && fitW > 0.0 && fitH > 0.0 && scale > 0.0
    ensures 0.0 < f <= 12.0 / scale && f <= fitH * 0.8
    ensures (len as real) * f * 0.6 <= fitW * 0.9
  {
    var f0 := Min(12.0 / scale, fitH * 0.8);
    var est := (len as real) * f0 * 0.6;
    assert est > 0.0;
    if est > fitW * 0.9 then
      var q := (fitW * 0.9) / est;
      assert q * est == fitW * 0.9;
      assert 0.0 < q < 1.0;
      assert (len as real) * (f0 * q) * 0.6 == q * est;
      f0 * q
    else f0
  }

  function NameCmds(it: Item, b: Box, scale: real): seq<Cmd>
    requires scale > 0.0
  {
    var w := b.maxX - b.minX;
    var h := b.maxY - b.minY;
    var vertical := h > w;
    var shortSide := if vertical then w else h;
    var longSide := if vertical then h else w;
    if it.name != [] && shortSide * scale > 10.0 && w > 0.0 && h > 0.0 then
      [ShelfName(it.name, Point(b.minX + w / 2.0, b.minY + h / 2.0), vertical, ShelfFont(|it.name|, longSide, shortSide, scale))]
    else []
  }

  /** One area or shelf whose box has a positive size. */
  function RectBody(it: Item, b: Box, p: DrawPass): seq<Cmd>
  {
    var r := BoxRect(b);
    var invalid := IsInvalid(p.invalid, p.layer, it.id);
    var side := FacingSide(b, it.facing);
    [FillBox(p.layer, r, invalid)]
    + (if !p.minimap && p.layer == Shelf then [AreaTriangle(Point(b.maxX, b.maxY), Min(r.w, r.h) * 0.7)] else [])
    + (if p.minimap then []
       else [StrokeBox(p.layer, r, invalid)]
            + (if p.layer == Shelf && side.Some? then [FacingEdge(side.value.0, side.value.1)] else [])
            + (if p.layer == Shelf then NameCmds(it, b, p.scale) else []))
  }

  // ---------------------------------------------------------------------------
  // Obstacles and columns (drawObstacleRects)
  // ---------------------------------------------------------------------------

  const HatchStep: real := 1000.0
  const PassageWidth: real := 600.0

  /** The hatch line at distance `offset` along the box, from its upper-right end to its
      lower-left end. */
  function HatchLine(b: Box, offset: real): Cmd
  {
    var w := b.maxX - b.minX;
    var h := b.maxY - b.minY;
    Hatch(Point(Min(b.minX + offset, b.maxX), b.minY + Max(0.0, offset - w)),
          Point(Max(b.minX, b.minX + offset - h), Min(b.minY + offset, b.maxY)))
  }

  function HatchCmds(b: Box): (r: seq<Cmd>)
    ensures forall c :: c in r ==> c.Hatch?
  {
    var n := StepCount((b.maxX - b.minX) + (b.maxY - b.minY), HatchStep);
    seq(n, k requires 0 <= k < n => HatchLine(b, (k as real) * HatchStep))
  }

  predicate InBox(b: Box, q: Point)
  {
    b.minX <= q.x <= b.maxX && b.minY <= q.y <= b.maxY
  }

  /** Every hatch line of an obstacle lies inside its box, on a diagonal x + y = const
      that moves down-right by one step per line. */
  lemma HatchInsideBox(b: Box, k: nat)
    requires b.minX < b.maxX && b.minY < b.maxY
    requires k < |HatchCmds(b)|
    ensures var c := HatchCmds(b)[k];
            InBox(b, c.from) && InBox(b, c.to) &&
            c.from.x + c.from.y == b.minX + b.minY + (k as real) * HatchStep &&
            c.to.x + c.to.y == b.minX + b.minY + (k as real) * HatchStep
  {
    StepCountExact((b.maxX - b.minX) + (b.maxY - b.minY), HatchStep, k);
  }

  /** The hatch loop of drawObstacleRects. */
  method DrawHatch(b: Box) returns (cmds: seq<Cmd>)
    ensures cmds == HatchCmds(b)
  {
    var limit := (b.maxX - b.minX) + (b.maxY - b.minY);
    var n := StepCount(limit, HatchStep);
    cmds := [];
    var k: nat := 0;
    while (k as real) * HatchStep <= limit
      invariant k <= n
      invariant cmds == seq(k, j requires 0 <= j < k => HatchLine(b, (j as real) * HatchStep))
      decreases n - k
    {
      StepCountExact(limit, HatchStep, k);
      cmds := cmds + [HatchLine(b, (k as real) * HatchStep)];
      k := k + 1;
    }
    StepCountExact(limit, HatchStep, k);
  }

  /** The floor of a passage through an obstacle's box, 600 wide, centred on the
      passage. */
  function PassageCmds(b: Box, pp: Passage): seq<Cmd>
  {
    if pp.direction == 0 then [PassageFloor(Rect(pp.at - PassageWidth / 2.0, b.minY, PassageWidth, b.maxY - b.minY))]
    else [PassageFloor(Rect(b.minX, pp.at - PassageWidth / 2.0, b.maxX - b.minX, PassageWidth))]
  }

  function PassageDrawer(b: Box): Passage -> seq<Cmd>
  {
    pp => PassageCmds(b, pp)
  }

  function ObstacleBody(it: Item, b: Box, p: DrawPass): seq<Cmd>
  {
    var r := BoxRect(b);
    var invalid := IsInvalid(p.invalid, p.layer, it.id);
    [FillBox(p.layer, r, invalid)]
    + (if p.minimap then []
       else [StrokeBox(p.layer, r, invalid)]
            + (if p.layer == Column then [ColumnCross(r)] else HatchCmds(b))
            + (if p.layer == Obstacle then FlatMap(it.passages, PassageDrawer(b)) else []))
  }

  method DrawObstacleBody(it: Item, b: Box, p: DrawPass) returns (cmds: seq<Cmd>)
    ensures cmds == ObstacleBody(it, b, p)
  {
    var r := BoxRect(b);
    var invalid := IsInvalid(p.invalid, p.layer, it.id);
    cmds := [FillBox(p.layer, r, invalid)];
    if !p.minimap {
      cmds := cmds + [StrokeBox(p.layer, r, invalid)];
      if p.layer == Column {
        cmds := cmds + [ColumnCross(r)];
      } else {
        var hatch := DrawHatch(b);
        cmds := cmds + hatch;
      }
      if p.layer == Obstacle {
        var floors := ForEachAppend(it.passages, PassageDrawer(b));
        cmds := cmds + floors;
      }
    }
  }

  // ---------------------------------------------------------------------------
  // One item, and one list of items
  // ---------------------------------------------------------------------------

  /** An item is skipped when it is hidden (main view only), has no coordinates, or its
      box has no area; otherwise drawRects or drawObstacleRects draws it. */
  predicate Visible(it: Item, p: DrawPass)
  {
    (p.minimap || HiddenKey(p.layer, it.id) !in p.hidden) && |it.coord| > 0 &&
    var b := Bounds(it.coord);
    b.maxX - b.minX > 0.0 && b.maxY - b.minY > 0.0
  }

  function ItemCmds(it: Item, p: DrawPass): seq<Cmd>
  {
    if !Visible(it, p) then []
    else
      var b := Bounds(it.coord);
      if p.layer == Obstacle || p.layer == Column then ObstacleBody(it, b, p) else RectBody(it, b, p)
  }

  method DrawItem(it: Item, p: DrawPass) returns (cmds: seq<Cmd>)
    ensures cmds == ItemCmds(it, p)
  {
    if !p.minimap && HiddenKey(p.layer, it.id) in p.hidden {
      return [];
    }
    if |it.coord| == 0 {
      return [];
    }
    var b := ComputeBounds(it.coord);
    if !(b.maxX - b.minX > 0.0 && b.maxY - b.minY > 0.0) {
      return [];
    }
    if p.layer == Obstacle || p.layer == Column {
      cmds := DrawObstacleBody(it, b, p);
    } else {
      cmds := RectBody(it, b, p);
    }
  }

  function ItemDrawer(p: DrawPass): Item -> seq<Cmd>
  {
    it => ItemCmds(it, p)
  }

  function ItemsCmds(items: seq<Item>, p: DrawPass): seq<Cmd>
  {
    FlatMap(items, ItemDrawer(p))
  }

  /** items.forEach of drawRects / drawObstacleRects. */
  method DrawItems(items: seq<Item>, p: DrawPass) returns (cmds: seq<Cmd>)
    ensures cmds == ItemsCmds(items, p)
  {
    cmds := [];
    var i := 0;
    while i < |items|
      invariant 0 <= i <= |items|
      invariant cmds == FlatMap(items[..i], ItemDrawer(p))
    {
      assert DropLast(items[..i + 1]) == items[..i];
      var c := DrawItem(items[i], p);
      cmds := cmds + c;
      i := i + 1;
    }
    assert items[..i] == items;
  }

  /** An item draws something exactly when it is visible; a drawn item is first filled
      with its invalid colour in both passes, and outlined (again with its invalid colour)
      only in the main view. */
  lemma ItemDrawnIffVisible(it: Item, p: DrawPass)
    ensures ItemCmds(it, p) != [] <==> Visible(it, p)
    ensures Visible(it, p) ==>
              ItemCmds(it, p)[0] == FillBox(p.layer, BoxRect(Bounds(it.coord)), IsInvalid(p.invalid, p.layer, it.id))
    ensures Visible(it, p) && !p.minimap ==>
              StrokeBox(p.layer, BoxRect(Bounds(it.coord)), IsInvalid(p.invalid, p.layer, it.id)) in ItemCmds(it, p)
    ensures p.minimap ==> forall c :: c in ItemCmds(it, p) ==> !c.StrokeBox?
  {
    if Visible(it, p) && p.minimap {
      var b := Bounds(it.coord);
      if p.layer == Obstacle || p.layer == Column {
        assert ItemCmds(it, p) == [FillBox(p.layer, BoxRect(b), IsInvalid(p.invalid, p.layer, it.id))];
      } else {
        assert ItemCmds(it, p) == [FillBox(p.layer, BoxRect(b), IsInvalid(p.invalid, p.layer, it.id))];
      }
    }
    if Visible(it, p) && !p.minimap {
      var b := Bounds(it.coord);
      var inv := IsInvalid(p.invalid, p.layer, it.id);
      if p.layer == Obstacle || p.layer == Column {
        assert ItemCmds(it, p)[1] == StrokeBox(p.layer, BoxRect(b), inv);
      } else if p.layer == Shelf {
        assert ItemCmds(it, p)[2] == StrokeBox(p.layer, BoxRect(b), inv);
      } else {
        assert ItemCmds(it, p)[1] == StrokeBox(p.layer, BoxRect(b), inv);
      }
    }
  }

  /** The hidden table matters only in the main view: the minimap draws the same whatever
      is hidden, and the main view draws nothing for a hidden item. */
  lemma HiddenOnlyInMainView(it: Item, p: DrawPass, other: set<string>)
    ensures p.minimap ==> ItemCmds(it, p) == ItemCmds(it, p.(hidden := other))
    ensures !p.minimap && HiddenKey(p.layer, it.id) in p.hidden ==> ItemCmds(it, p) == []
  {
  }

  /** The commands an item can produce. */
  predicate ItemKind(c: Cmd)
  {
    c.FillBox? || c.AreaTriangle? || c.StrokeBox? || c.FacingEdge? || c.ShelfName? ||
    c.ColumnCross? || c.Hatch? || c.PassageFloor?
  }

  /** A list of items draws only item commands, and every box it fills or outlines is of
      that list's type. */
  lemma {:induction false} ItemsStayInLayer(items: seq<Item>, p: DrawPass)
    ensures forall c :: c in ItemsCmds(items, p) ==> ItemKind(c)
    ensures forall c :: c in ItemsCmds(items, p) && (c.FillBox? || c.StrokeBox?) ==> c.layer == p.layer
  {
    forall c | c in ItemsCmds(items, p)
      ensures ItemKind(c) && (c.FillBox? || c.StrokeBox? ==> c.layer == p.layer)
    {
      FlatMapMember(items, ItemDrawer(p), c);
      var i :| 0 <= i < |items| && c in ItemCmds(items[i], p);
      ItemCmdShape(items[i], p, c);
    }
  }

  lemma ItemCmdShape(it: Item, p: DrawPass, c: Cmd)
    requires c in ItemCmds(it, p)
    ensures ItemKind(c) && (c.FillBox? || c.StrokeBox? ==> c.layer == p.layer)
  {
    var b := Bounds(it.coord);
    if p.layer == Obstacle || p.layer == Column {
      ObstacleCmdShape(it, b, p, c);
    } else {
      assert c in RectBody(it, b, p);
    }
  }

  lemma ObstacleCmdShape(it: Item, b: Box, p: DrawPass, c: Cmd)
    requires c in ObstacleBody(it, b, p)
    ensures ItemKind(c) && (c.FillBox? || c.StrokeBox? ==> c.layer == p.layer)
  {
    if c in FlatMap(it.passages, PassageDrawer(b)) {
      FlatMapMember(it.passages, PassageDrawer(b), c);
    }
  }

  // ---------------------------------------------------------------------------
  // Aisles
  // ---------------------------------------------------------------------------

  /** The direction an aisle's Direction code stands for, on screen. */
  function Heading(d: int): (g: Option<Glyph>)
    ensures g.Some? <==> d in {1, 2, 4, 8, 3, 12, 15}
  {
    if d == 1 then Some(ArrowUp)
    else if d == 2 then Some(ArrowDown)
    else if d == 4 then Some(ArrowLeft)
    else if d == 8 then Some(ArrowRight)
    else if d == 3 then Some(ArrowUpDown)
    else if d == 12 then Some(ArrowLeftRight)
    else if d == 15 then Some(ArrowFourWay)
    else None
  }

  /** A glyph turned a quarter clockwise, as ctx.rotate(PI / 2) shows it. */
  function Turned(g: Glyph): Glyph
  {
    match g
    case ArrowUp => ArrowRight
    case ArrowRight => ArrowDown
    case ArrowDown => ArrowLeft
    case ArrowLeft => ArrowUp
    case ArrowUpDown => ArrowLeftRight
    case ArrowLeftRight => ArrowUpDown
    case ArrowFourWay => ArrowFourWay
  }

  /** What a glyph looks like on screen: the label of a vertical aisle is rotated. */
  function Shown(g: Glyph, vertical: bool): Glyph
  {
    if vertical then Turned(g) else g
  }

  /** The glyph table of the aisle section as written: in a vertical aisle, Left (4) gets
      the up arrow and Right (8) the down arrow. */
  function AisleGlyphAsWritten(d: int, vertical: bool): Option<Glyph>
  {
    if d == 1 then Some(if vertical then ArrowLeft else ArrowUp)
    else if d == 2 then Some(if vertical then ArrowRight else ArrowDown)
    else if d == 4 then Some(if vertical then ArrowUp else ArrowLeft)
    else if d == 8 then Some(if vertical then ArrowDown else ArrowRight)
    else if d == 3 then Some(if vertical then ArrowLeftRight else ArrowUpDown)
    else if d == 12 then Some(if vertical then ArrowUpDown else ArrowLeftRight)
    else if d == 15 then Some(ArrowFourWay)
    else None
  }

  /** After the rotation, a vertical aisle marked Left shows a right arrow, and one marked
      Right a left arrow; every other entry shows its heading. */
  lemma AsWrittenMirrorsSideways()
    ensures Shown(AisleGlyphAsWritten(4, true).value, true) == ArrowRight && Heading(4) == Some(ArrowLeft)
    ensures Shown(AisleGlyphAsWritten(8, true).value, true) == ArrowLeft && Heading(8) == Some(ArrowRight)
    ensures forall d :: d !in {4, 8} && Heading(d).Some? ==> Shown(AisleGlyphAsWritten(d, true).value, true) == Heading(d).value
  {
  }

  /** The glyph table with the two sideways entries of vertical aisles swapped, so that
      every arrow shows its heading once rotated; it agrees with the table as written
      everywhere else. */
  function AisleGlyph(d: int, vertical: bool): (g: Option<Glyph>)
    ensures g.Some? <==> d in {1, 2, 4, 8, 3, 12, 15}
    ensures g.Some? ==> Shown(g.value, vertical) == Heading(d).value
    ensures !vertical || d !in {4, 8} ==> g == AisleGlyphAsWritten(d, vertical)
  {
    if vertical && d == 4 then Some(ArrowDown)
    else if vertical && d == 8 then Some(ArrowUp)
    else AisleGlyphAsWritten(d, vertical)
  }

  /** String(n).padStart(2, '0'). */
  function Pad2(s: string): (r: string)
    ensures |r| >= 2
    ensures |s| == 0 ==> r == "00"
    ensures |s| == 1 ==> r == "0" + s
    ensures |s| >= 2 ==> r == s
  {
    if |s| == 0 then "00" else if |s| == 1 then "0" + s else s
  }

  /** An area number of 0 or more prints with at least two digits and reads back as
      itself. */
  lemma AreaNumberReadsBack(n: nat)
    ensures var t := Pad2(NatToString(n));
            |t| >= 2 && IsDigits(t) && ParseNat(t) == n
  {
    ParseNatToString(n);
    var s := NatToString(n);
    if n < 10 {
      var t := "0" + s;
      assert t[..1] == "0";
      assert t[..0] == [];
      assert ParseNat(t[..1]) == 0;
      assert t[1] == s[0];
      assert s[..0] == [];
    }
  }

  /** `[${String(n).padStart(2, '0')}]` for a present AreaNumber; String(null) is "null". */
  function AreaLabel(n: AreaNumber): string
    requires !n.Undefined?
  {
    "[" + Pad2(if n.Null? then "null" else IntToString(n.value)) + "]"
  }

  /** The label test is `!== undefined`, so a null area number prints as "[null]", and a
      number n of 0 or more as its digits padded to two, in brackets. */
  lemma AreaLabelCases(a: Aisle, scale: real, n: nat)
    requires scale > 0.02 && a.area.w > 0.0 && a.area.h > 0.0
    ensures a.areaNumber.Null? ==> AisleNumber("[null]", Center(a.area)) in AisleCmds(a, scale)
    ensures a.areaNumber == Number(n) ==> AisleNumber("[" + Pad2(NatToString(n)) + "]", Center(a.area)) in AisleCmds(a, scale)
    ensures a.areaNumber.Undefined? ==> forall c :: c in AisleCmds(a, scale) ==> !c.AisleNumber?
  {
    var cmds := AisleCmds(a, scale);
    if a.areaNumber.Null? {
      assert Pad2("null") == "null";
      assert AreaLabel(a.areaNumber) == "[null]";
    }
    if !a.areaNumber.Undefined? {
      assert Last(cmds) == AisleNumber(AreaLabel(a.areaNumber), Center(a.area));
    }
  }

  function Center(r: Rect): Point
  {
    Point(r.x + r.w / 2.0, r.y + r.h / 2.0)
  }

  /** An aisle with a positive size: its floor, its dashed centre line 10 screen pixels in
      from each end along its long axis, its arrow, and, above scale 0.02, its name and
      area number. */
  function AisleCmds(a: Aisle, scale: real): seq<Cmd>
    requires scale > 0.0
  {
    var r := a.area;
    if r.w <= 0.0 || r.h <= 0.0 then []
    else
      var vertical := r.h > r.w;
      var c := Center(r);
      var inset := 10.0 / scale;
      var line := if vertical then AisleCenterLine(Point(c.x, r.y + inset), Point(c.x, r.y + r.h - inset))
                  else AisleCenterLine(Point(r.x + inset, c.y), Point(r.x + r.w - inset, c.y));
      var glyph := AisleGlyph(a.direction, vertical);
      [AisleFloor(r), line]
      + (if glyph.Some? then [AisleArrow(glyph.value, c, vertical)] else [])
      + (if scale > 0.02 then
           (if a.name != [] then [AisleName(a.name, c)] else [])
           + (if !a.areaNumber.Undefined? then [AisleNumber(AreaLabel(a.areaNumber), c)] else [])
         else [])
  }

  type Positive = x: real | x > 0.0 witness 1.0

  function AisleDrawer(scale: Positive): Aisle -> seq<Cmd>
  {
    a => AisleCmds(a, scale)
  }

  // ---------------------------------------------------------------------------
  // Zones
  // ---------------------------------------------------------------------------

  /** Two zone ids, the smaller first. */
  function LowHigh(a: int, b: int): (r: (int, int))
    ensures r.0 <= r.1
    ensures r == (a, b) || r == (b, a)
  {
    if a <= b then (a, b) else (b, a)
  }

  /** The label of a connection between two zones, smaller id first. */
  function LinkLabel(a: int, b: int): string
  {
    "Z" + IntToString(LowHigh(a, b).0) + "-Z" + IntToString(LowHigh(a, b).1)
  }

  /** Both ends of a connection print the same label, and for zone ids of 0 or more the
      label names the pair: different pairs never share a label. */
  lemma LinkLabelNamesPair(a: nat, b: nat, c: nat, d: nat)
    ensures LinkLabel(a, b) == LinkLabel(b, a)
    ensures LinkLabel(a, b) == LinkLabel(c, d) ==> LowHigh(a, b) == LowHigh(c, d)
  {
    assert LowHigh(a, b) == LowHigh(b, a);
    var (p1, p2) := LowHigh(a, b);
    var (q1, q2) := LowHigh(c, d);
    if LinkLabel(a, b) == LinkLabel(c, d) {
      assert IntToString(p1) == NatToString(p1) && IntToString(p2) == NatToString(p2);
      assert IntToString(q1) == NatToString(q1) && IntToString(q2) == NatToString(q2);
      SplitLabel(NatToString(p1), NatToString(p2), NatToString(q1), NatToString(q2));
      NatToStringInjective(p1, q1);
      NatToStringInjective(p2, q2);
    }
  }

  lemma SplitLabel(s1: string, s2: string, t1: string, t2: string)
    requires IsDigits(s1) && IsDigits(t1)
    requires "Z" + s1 + "-Z" + s2 == "Z" + t1 + "-Z" + t2
    ensures s1 == t1 && s2 == t2
  {
    if |s1| < |t1| {
      LabelsDiffer(s1, s2, t1, t2);
      assert false;
    } else if |t1| < |s1| {
      LabelsDiffer(t1, t2, s1, s2);
      assert false;
    } else {
      var l := "Z" + s1 + "-Z" + s2;
      assert s1 == l[1..1 + |s1|];
      assert t1 == ("Z" + t1 + "-Z" + t2)[1..1 + |t1|];
      assert s2 == l[3 + |s1|..];
      assert t2 == ("Z" + t1 + "-Z" + t2)[3 + |t1|..];
    }
  }

  lemma LabelsDiffer(s1: string, s2: string, t1: string, t2: string)
    requires IsDigits(t1) && |s1| < |t1|
    ensures "Z" + s1 + "-Z" + s2 != "Z" + t1 + "-Z" + t2
  {
    assert ("Z" + s1 + "-Z" + s2)[1 + |s1|] == '-';
    assert ("Z" + t1 + "-Z" + t2)[1 + |s1|] == t1[|s1|];
  }

  /** A connector: its dot, and above scale 0.005 its label right of the dot (radius 6
      plus padding 4 screen pixels). */
  function LinkCmds(zoneId: int, l: Link, scale: real): seq<Cmd>
    requires scale > 0.0
  {
    [ConnectorDot(l.at)]
    + (if scale > 0.005 then [ConnectorLabel(LinkLabel(zoneId, l.id), Point(l.at.x + 10.0 / scale, l.at.y))] else [])
  }

  function LinkDrawer(zoneId: int, scale: Positive): Link -> seq<Cmd>
  {
    l => LinkCmds(zoneId, l, scale)
  }

  /** A zone: its box, its connectors, and above scale 0.002 its id 8 screen pixels in from
      its corner. */
  function ZoneCmds(z: Zone, scale: Positive): seq<Cmd>
  {
    [ZoneBox(z.area)]
    + FlatMap(z.links, LinkDrawer(z.id, scale))
    + (if scale > 0.002 then [ZoneLabel("Z" + IntToString(z.id), Point(z.area.x + 8.0 / scale, z.area.y + 8.0 / scale))] else [])
  }

  function ZoneDrawer(scale: Positive): Zone -> seq<Cmd>
  {
    z => ZoneCmds(z, scale)
  }

  method DrawZone(z: Zone, scale: Positive) returns (cmds: seq<Cmd>)
    ensures cmds == ZoneCmds(z, scale)
  {
    var links := ForEachAppend(z.links, LinkDrawer(z.id, scale));
    cmds := [ZoneBox(z.area)] + links;
    if scale > 0.002 {
      cmds := cmds + [ZoneLabel("Z" + IntToString(z.id), Point(z.area.x + 8.0 / scale, z.area.y + 8.0 / scale))];
    }
  }

  // ---------------------------------------------------------------------------
  // The scene
  // ---------------------------------------------------------------------------

  /** The aisle section of the main view; its zones are drawn only when there are
      aisles. */
  function AisleSection(d: Layout, scale: Positive): seq<Cmd>
  {
    if |d.aisles| == 0 then []
    else FlatMap(d.aisles, AisleDrawer(scale)) + FlatMap(d.zones, ZoneDrawer(scale))
  }

  function LayerPass(l: Layer, hidden: set<string>, invalid: InvalidTable, scale: real, minimap: bool): DrawPass
    requires scale >= 0.0 && (minimap || scale > 0.0)
  {
    Pass(l, hidden, invalid, scale, minimap)
  }

  /** _drawScene: the wall, then start areas, end areas, obstacles, columns and shelves,
      then, in the main view, aisles and zones. */
  function SceneCmds(d: Layout, hidden: set<string>, invalid: InvalidTable, scale: real, minimap: bool): seq<Cmd>
    requires scale >= 0.0 && (minimap || scale > 0.0)
  {
    WallCmds(d.wall)
    + ItemsCmds(d.startAreas, LayerPass(Start, hidden, invalid, scale, minimap))
    + ItemsCmds(d.endAreas, LayerPass(End, hidden, invalid, scale, minimap))
    + ItemsCmds(d.obstacles, LayerPass(Obstacle, hidden, invalid, scale, minimap))
    + ItemsCmds(d.columns, LayerPass(Column, hidden, invalid, scale, minimap))
    + ItemsCmds(d.shelves, LayerPass(Shelf, hidden, invalid, scale, minimap))
    + (if minimap then [] else AisleSection(d, scale))
  }

  method DrawScene(d: Layout, hidden: set<string>, invalid: InvalidTable, scale: real, minimap: bool) returns (cmds: seq<Cmd>)
    requires scale >= 0.0 && (minimap || scale > 0.0)
    ensures cmds == SceneCmds(d, hidden, invalid, scale, minimap)
  {
    cmds := WallCmds(d.wall);
    var c := DrawItems(d.startAreas, LayerPass(Start, hidden, invalid, scale, minimap));
    cmds := cmds + c;
    c := DrawItems(d.endAreas, LayerPass(End, hidden, invalid, scale, minimap));
    cmds := cmds + c;
    c := DrawItems(d.obstacles, LayerPass(Obstacle, hidden, invalid, scale, minimap));
    cmds := cmds + c;
    c := DrawItems(d.columns, LayerPass(Column, hidden, invalid, scale, minimap));
    cmds := cmds + c;
    c := DrawItems(d.shelves, LayerPass(Shelf, hidden, invalid, scale, minimap));
    cmds := cmds + c;
    if !minimap && |d.aisles| > 0 {
      var aisles := ForEachAppend(d.aisles, AisleDrawer(scale));
      var zones := ForEachAppend(d.zones, ZoneDrawer(scale));
      cmds := cmds + (aisles + zones);
    }
  }

  /** Position of a type in the drawing order. */
  function Rank(l: Layer): nat
  {
    match l
    case Start => 0
    case End => 1
    case Obstacle => 2
    case Column => 3
    case Shelf => 4
  }

  predicate Ordered(cmds: seq<Cmd>)
  {
    forall i, j :: 0 <= i < j < |cmds| && cmds[i].FillBox? && cmds[j].FillBox? ==>
      Rank(cmds[i].layer) <= Rank(cmds[j].layer)
  }

  predicate RanksAtMost(cmds: seq<Cmd>, r: nat)
  {
    forall c :: c in cmds && c.FillBox? ==> Rank(c.layer) <= r
  }

  predicate RanksAtLeast(cmds: seq<Cmd>, r: nat)
  {
    forall c :: c in cmds && c.FillBox? ==> Rank(c.layer) >= r
  }

  /** Appending boxes of one rank r to an ordered list whose boxes rank at most r keeps
      it ordered. */
  lemma AppendLayer(xs: seq<Cmd>, ys: seq<Cmd>, r: nat)
    requires Ordered(xs) && RanksAtMost(xs, r) && RanksAtMost(ys, r) && RanksAtLeast(ys, r)
    ensures Ordered(xs + ys) && RanksAtMost(xs + ys, r)
  {
    var zs := xs + ys;
    forall i, j | 0 <= i < j < |zs| && zs[i].FillBox? && zs[j].FillBox?
      ensures Rank(zs[i].layer) <= Rank(zs[j].layer)
    {
      if j < |xs| {
        assert zs[i] == xs[i] && zs[j] == xs[j];
      } else if i >= |xs| {
        assert zs[i] in ys && zs[j] in ys;
      } else {
        assert zs[i] in xs && zs[j] in ys;
      }
    }
  }

  lemma Weaken(xs: seq<Cmd>, r: nat)
    requires RanksAtMost(xs, r)
    ensures RanksAtMost(xs, r + 1)
  {
  }

  lemma ChainLayers(w: seq<Cmd>, s: seq<Cmd>, e: seq<Cmd>, o: seq<Cmd>, c: seq<Cmd>, l: seq<Cmd>, rest: seq<Cmd>)
    requires Ordered(w) && RanksAtMost(w, 0)
    requires RanksAtMost(s, 0) && RanksAtLeast(s, 0)
    requires RanksAtMost(e, 1) && RanksAtLeast(e, 1)
    requires RanksAtMost(o, 2) && RanksAtLeast(o, 2)
    requires RanksAtMost(c, 3) && RanksAtLeast(c, 3)
    requires RanksAtMost(l, 4) && RanksAtLeast(l, 4)
    requires forall x :: x in rest ==> !x.FillBox?
    ensures Ordered(w + s + e + o + c + l + rest)
  {
    AppendLayer(w, s, 0);
    Weaken(w + s, 0);
    AppendLayer(w + s, e, 1);
    Weaken(w + s + e, 1);
    AppendLayer(w + s + e, o, 2);
    Weaken(w + s + e + o, 2);
    AppendLayer(w + s + e + o, c, 3);
    Weaken(w + s + e + o + c, 3);
    AppendLayer(w + s + e + o + c, l, 4);
    AppendLayer(w + s + e + o + c + l, rest, 4);
  }

  lemma LayerSegment(items: seq<Item>, p: DrawPass)
    ensures Ordered(ItemsCmds(items, p))
    ensures RanksAtMost(ItemsCmds(items, p), Rank(p.layer)) && RanksAtLeast(ItemsCmds(items, p), Rank(p.layer))
  {
    ItemsStayInLayer(items, p);
  }

  /** The commands of the aisle section. */
  predicate AisleKind(c: Cmd)
  {
    c.AisleFloor? || c.AisleCenterLine? || c.AisleArrow? || c.AisleName? || c.AisleNumber? ||
    c.ZoneBox? || c.ConnectorDot? || c.ConnectorLabel? || c.ZoneLabel?
  }

  lemma {:induction false} AisleSectionHasNoBoxes(d: Layout, scale: Positive)
    ensures forall c :: c in AisleSection(d, scale) ==> AisleKind(c)
  {
    if |d.aisles| > 0 {
      AislesAreAisleKind(d.aisles, scale);
      ZonesAreAisleKind(d.zones, scale);
    }
  }

  lemma AislesAreAisleKind(aisles: seq<Aisle>, scale: Positive)
    ensures forall c :: c in FlatMap(aisles, AisleDrawer(scale)) ==> AisleKind(c)
  {
    forall c | c in FlatMap(aisles, AisleDrawer(scale))
      ensures AisleKind(c)
    {
      FlatMapMember(aisles, AisleDrawer(scale), c);
    }
  }

  lemma ZonesAreAisleKind(zones: seq<Zone>, scale: Positive)
    ensures forall c :: c in FlatMap(zones, ZoneDrawer(scale)) ==> AisleKind(c)
  {
    forall c | c in FlatMap(zones, ZoneDrawer(scale))
      ensures AisleKind(c)
    {
      FlatMapMember(zones, ZoneDrawer(scale), c);
      var i :| 0 <= i < |zones| && c in ZoneCmds(zones[i], scale);
      if c in FlatMap(zones[i].links, LinkDrawer(zones[i].id, scale)) {
        FlatMapMember(zones[i].links, LinkDrawer(zones[i].id, scale), c);
      }
    }
  }

  /** The filled boxes of a scene come in the fixed order start, end, obstacle, column,
      shelf, in both views. */
  lemma {:induction false} SceneDrawOrder(d: Layout, hidden: set<string>, invalid: InvalidTable, scale: real, minimap: bool)
    requires scale >= 0.0 && (minimap || scale > 0.0)
    ensures Ordered(SceneCmds(d, hidden, invalid, scale, minimap))
  {
    var ps := LayerPass(Start, hidden, invalid, scale, minimap);
    var pe := LayerPass(End, hidden, invalid, scale, minimap);
    var po := LayerPass(Obstacle, hidden, invalid, scale, minimap);
    var pc := LayerPass(Column, hidden, invalid, scale, minimap);
    var pl := LayerPass(Shelf, hidden, invalid, scale, minimap);
    var w := WallCmds(d.wall);
    var s := ItemsCmds(d.startAreas, ps);
    var e := ItemsCmds(d.endAreas, pe);
    var o := ItemsCmds(d.obstacles, po);
    var c := ItemsCmds(d.columns, pc);
    var l := ItemsCmds(d.shelves, pl);
    var rest := if minimap then [] else AisleSection(d, scale);
    LayerRanks(d.startAreas, ps, 0);
    LayerRanks(d.endAreas, pe, 1);
    LayerRanks(d.obstacles, po, 2);
    LayerRanks(d.columns, pc, 3);
    LayerRanks(d.shelves, pl, 4);
    RestHasNoBoxes(d, scale, minimap);
    assert Ordered(w) && RanksAtMost(w, 0);
    ChainLayers(w, s, e, o, c, l, rest);
  }

  lemma LayerRanks(items: seq<Item>, p: DrawPass, r: nat)
    requires Rank(p.layer) == r
    ensures RanksAtMost(ItemsCmds(items, p), r) && RanksAtLeast(ItemsCmds(items, p), r)
  {
    LayerSegment(items, p);
  }

  lemma RestHasNoBoxes(d: Layout, scale: real, minimap: bool)
    requires minimap || scale > 0.0
    ensures forall x :: x in (if minimap then [] else AisleSection(d, scale)) ==> !x.FillBox?
  {
    if !minimap {
      AisleSectionHasNoBoxes(d, scale);
    }
  }

  lemma {:induction false} MinimapItemsFillOnly(items: seq<Item>, p: DrawPass)
    requires p.minimap
    ensures forall c :: c in ItemsCmds(items, p) ==> c.FillBox?
  {
    forall c | c in ItemsCmds(items, p)
      ensures c.FillBox?
    {
      FlatMapMember(items, ItemDrawer(p), c);
      var i :| 0 <= i < |items| && c in ItemCmds(items[i], p);
      ItemDrawnIffVisible(items[i], p);
    }
  }

  /** The minimap shows no aisle, zone or outline: only the wall and filled boxes. */
  lemma {:induction false} MinimapFillsOnly(d: Layout, hidden: set<string>, invalid: InvalidTable, scale: real)
    requires scale >= 0.0
    ensures forall c :: c in SceneCmds(d, hidden, invalid, scale, true) ==>
              c.FillBox? || c.WallShade? || c.WallStroke?
  {
    MinimapItemsFillOnly(d.startAreas, LayerPass(Start, hidden, invalid, scale, true));
    MinimapItemsFillOnly(d.endAreas, LayerPass(End, hidden, invalid, scale, true));
    MinimapItemsFillOnly(d.obstacles, LayerPass(Obstacle, hidden, invalid, scale, true));
    MinimapItemsFillOnly(d.columns, LayerPass(Column, hidden, invalid, scale, true));
    MinimapItemsFillOnly(d.shelves, LayerPass(Shelf, hidden, invalid, scale, true));
  }
}
