/** The real-size calibration tool of the drawing extractor (enableRealSizePicker,
    setRealSizeScale, getRealSizePoints, clearRealSizePoints): two clicks draw a dimension
    line snapped to the nearer axis, kept in a horizontal and a vertical slot, and
    labelled with its length in pixels or, once scales are known, in millimetres. */
module RealSize {
  import opened Common

  /** A confirmed dimension line. */
  datatype Line = Line(p1: Point, p2: Point)

  /** The end of a line from `start` towards `pos`, projected onto the axis along which the
      pointer moved further (ties count as horizontal); the Boolean says whether that axis
      is the horizontal one. */
  function Project(start: Point, pos: Point): (r: (bool, Point))
    ensures r.0 <==> Abs(pos.y - start.y) <= Abs(pos.x - start.x)
    ensures r.0 ==> r.1.y == start.y && r.1.x == pos.x
    ensures !r.0 ==> r.1.x == start.x && r.1.y == pos.y
  {
    var horizontal := Abs(pos.x - start.x) >= Abs(pos.y - start.y);
    (horizontal, if horizontal then Point(pos.x, start.y) else Point(start.x, pos.y))
  }

  /** Projecting a projected end again changes nothing. */
  lemma ProjectIdempotent(start: Point, pos: Point)
    ensures Project(start, Project(start, pos).1) == Project(start, pos)
  {
  }

  /** The squared length the label shows: in millimetres (each axis times its scale) when
      both scales are positive, otherwise in pixels. */
  function MeasureSq(p1: Point, p2: Point, sx: real, sy: real): (d: real)
    ensures d >= 0.0
    ensures !(sx > 0.0 && sy > 0.0) ==> d == DistSq(p1, p2)
  {
    var dx := p2.x - p1.x;
    var dy := p2.y - p1.y;
    if sx > 0.0 && sy > 0.0 then Sq(dx * sx) + Sq(dy * sy) else Sq(dx) + Sq(dy)
  }

  /** getDistText: the rounded length followed by its unit. */
  function DistText(p1: Point, p2: Point, sx: real, sy: real): (t: string)
    ensures |t| >= 4
    ensures t[|t| - 3..] == (if sx > 0.0 && sy > 0.0 then " mm" else " px")
  {
    NatToString(RoundSqrt(MeasureSq(p1, p2, sx, sy))) + (if sx > 0.0 && sy > 0.0 then " mm" else " px")
  }

  /** The number before the unit reads back as the rounded square root of the measured
      squared length. */
  lemma DistTextReadsBack(p1: Point, p2: Point, sx: real, sy: real)
    ensures var t := DistText(p1, p2, sx, sy);
            IsDigits(t[..|t| - 3]) && RoundsToRoot(MeasureSq(p1, p2, sx, sy), ParseNat(t[..|t| - 3]))
  {
    var n := RoundSqrt(MeasureSq(p1, p2, sx, sy));
    var t := DistText(p1, p2, sx, sy);
    assert t[..|t| - 3] == NatToString(n);
    ParseNatToString(n);
  }

  /** A horizontal line of a calibrated drawing reads its pixel length times the horizontal
      scale, rounded. */
  lemma HorizontalLabelIsScaledLength(p1: Point, p2: Point, sx: real, sy: real)
    requires sx > 0.0 && sy > 0.0 && p1.y == p2.y
    ensures var t := DistText(p1, p2, sx, sy);
            ParseNat(t[..|t| - 3]) == Round(Abs((p2.x - p1.x) * sx))
  {
    var t := DistText(p1, p2, sx, sy);
    DistTextReadsBack(p1, p2, sx, sy);
    MeasureHorizontal(p1, p2, sx, sy);
    RootOfSquare(Abs((p2.x - p1.x) * sx), ParseNat(t[..|t| - 3]));
  }

  lemma MeasureHorizontal(p1: Point, p2: Point, sx: real, sy: real)
    requires sx > 0.0 && sy > 0.0 && p1.y == p2.y
    ensures MeasureSq(p1, p2, sx, sy) == Sq(Abs((p2.x - p1.x) * sx))
  {
    var x := (p2.x - p1.x) * sx;
    assert Sq(Abs(x)) == Sq(x);
    assert (p2.y - p1.y) * sy == 0.0;
  }

  /** A vertical line of a calibrated drawing reads its pixel length times the vertical
      scale, rounded. */
  lemma VerticalLabelIsScaledLength(p1: Point, p2: Point, sx: real, sy: real)
    requires sx > 0.0 && sy > 0.0 && p1.x == p2.x
    ensures var t := DistText(p1, p2, sx, sy);
            ParseNat(t[..|t| - 3]) == Round(Abs((p2.y - p1.y) * sy))
  {
    var t := DistText(p1, p2, sx, sy);
    DistTextReadsBack(p1, p2, sx, sy);
    MeasureVertical(p1, p2, sx, sy);
    RootOfSquare(Abs((p2.y - p1.y) * sy), ParseNat(t[..|t| - 3]));
  }

  lemma MeasureVertical(p1: Point, p2: Point, sx: real, sy: real)
    requires sx > 0.0 && sy > 0.0 && p1.x == p2.x
    ensures MeasureSq(p1, p2, sx, sy) == Sq(Abs((p2.y - p1.y) * sy))
  {
    var y := (p2.y - p1.y) * sy;
    assert Sq(Abs(y)) == Sq(y);
    assert (p2.x - p1.x) * sx == 0.0;
  }

  /** Math.round(Math.sqrt(a * a)) is Math.round(a) for a >= 0. */
  lemma RootOfSquare(a: real, n: nat)
    requires a >= 0.0 && RoundsToRoot(Sq(a), n)
    ensures n == Round(a)
  {
    if a >= n as real + 0.5 {
      SquareMonotone(n as real + 0.5, a);
      assert false;
    }
    if n > 0 && a < n as real - 0.5 {
      var b := n as real - 0.5;
      SquareStrictlyMonotone(a, b);
      assert false;
    }
  }

  lemma SquareStrictlyMonotone(a: real, b: real)
    requires 0.0 <= a < b
    ensures Sq(a) < Sq(b)
  {
    var u := b - a;
    var v := b + a;
    assert u * v > 0.0;
    assert Sq(b) - Sq(a) == u * v;
  }

  /** Where a label box of size `box` centred at `mid` goes along one axis of a canvas of
      size `extent`: pushed 2 pixels inside the edge it would cross. */
  function LabelCenter(mid: real, box: real, extent: real): (c: real)
    ensures mid - box / 2.0 >= 0.0 && mid + box / 2.0 <= extent ==> c == mid
    ensures box >= 0.0 && box + 4.0 <= extent ==> c - box / 2.0 >= 0.0 && c + box / 2.0 <= extent
  {
    if mid - box / 2.0 < 0.0 then box / 2.0 + 2.0
    else if mid + box / 2.0 > extent then extent - box / 2.0 - 2.0
    else mid
  }

  /** What the canvas shows, in painting order: content painted by other tools, and
      dimension lines with their end bars, label text and label centre. */
  datatype Paint =
    | Earlier(tag: nat)
    | Dimension(p1: Point, p2: Point, horizontal: bool, text: string, labelAt: Point, confirmed: bool)

  /** Height of the label box; its width is the text width plus 12. */
  const LabelBoxHeight: real := 20.0

  /** drawDimensionLine: the line, bars across its ends (vertical bars when the line is
      horizontal within a pixel), and the clamped label. `textWidth` is the canvas's
      measureText. */
  function DimensionPaint(p1: Point, p2: Point, confirmed: bool, sx: real, sy: real,
                          width: real, height: real, textWidth: string -> real): (p: Paint)
    ensures p.Dimension? && p.p1 == p1 && p.p2 == p2 && p.text == DistText(p1, p2, sx, sy) && p.confirmed == confirmed
    ensures p.horizontal <==> Abs(p1.y - p2.y) < 1.0
  {
    var text := DistText(p1, p2, sx, sy);
    var box := textWidth(text) + 12.0;
    Dimension(p1, p2, Abs(p1.y - p2.y) < 1.0, text,
              Point(LabelCenter((p1.x + p2.x) / 2.0, box, width), LabelCenter((p1.y + p2.y) / 2.0, LabelBoxHeight, height)),
              confirmed)
  }

  /** The lines redrawAll paints over the snapshot: the horizontal slot, the vertical slot,
      then the line in progress from the first to the last current point. */
  function Overlay(horz: Option<Line>, vert: Option<Line>, current: seq<Point>, sx: real, sy: real,
                   width: real, height: real, textWidth: string -> real): (ps: seq<Paint>)
    ensures |ps| == (if horz.Some? then 1 else 0) + (if vert.Some? then 1 else 0) + (if |current| > 1 then 1 else 0)
    ensures forall i :: 0 <= i < |ps| ==> ps[i].Dimension? && (ps[i].confirmed <==> i < |ps| - (if |current| > 1 then 1 else 0))
  {
    var h := SavedPaint(horz, sx, sy, width, height, textWidth);
    var v := SavedPaint(vert, sx, sy, width, height, textWidth);
    var c := if |current| > 1 then [DimensionPaint(current[0], Last(current), false, sx, sy, width, height, textWidth)] else [];
    assert forall i :: 0 <= i < |c| ==> c[i].Dimension? && !c[i].confirmed;
    h + v + c
  }

  /** The confirmed line of one slot, if the slot holds one. */
  function SavedPaint(l: Option<Line>, sx: real, sy: real, width: real, height: real, textWidth: string -> real): (ps: seq<Paint>)
    ensures |ps| == if l.Some? then 1 else 0
    ensures forall i :: 0 <= i < |ps| ==> ps[i].Dimension? && ps[i].confirmed
  {
    if l.Some? then [DimensionPaint(l.value.p1, l.value.p2, true, sx, sy, width, height, textWidth)] else []
  }

  /** The drawDimensionLine calls of redrawAll, in order. */
  method PaintOverlay(horz: Option<Line>, vert: Option<Line>, current: seq<Point>, sx: real, sy: real,
                      width: real, height: real, textWidth: string -> real) returns (paints: seq<Paint>)
    ensures paints == Overlay(horz, vert, current, sx, sy, width, height, textWidth)
  {
    var h := PaintSlot(horz, sx, sy, width, height, textWidth);
    var v := PaintSlot(vert, sx, sy, width, height, textWidth);
    var c := [];
    if |current| > 1 {
      c := [DimensionPaint(current[0], current[|current| - 1], false, sx, sy, width, height, textWidth)];
    }
    paints := h + v + c;
  }

  /** The drawDimensionLine call for one slot, when it holds a line. */
  method PaintSlot(l: Option<Line>, sx: real, sy: real, width: real, height: real, textWidth: string -> real)
    returns (paints: seq<Paint>)
    ensures paints == SavedPaint(l, sx, sy, width, height, textWidth)
  {
    paints := [];
    if l.Some? {
      paints := [DimensionPaint(l.value.p1, l.value.p2, true, sx, sy, width, height, textWidth)];
    }
  }

  /** The calibration state a canvas carries. */
  class RealSizeCanvas {
    /** __savedLines.horz and __savedLines.vert. */
    var horz: Option<Line>
    var vert: Option<Line>
    /** __currentPoints: the start of the line in progress, then the projected pointer. */
    var current: seq<Point>
    /** __lastCommittedPoints. */
    var lastCommitted: seq<Point>
    /** __scaleInfo: millimetres per pixel on each axis; 0 means not calibrated. */
    var scaleX: real
    var scaleY: real
    /** The canvas content captured when the picker was enabled; None before, when there
        is no __redrawAll to call. */
    var snapshot: Option<seq<Paint>>
    /** What the canvas shows. */
    var frame: seq<Paint>
    /** Whether the picker was given a host to notify. */
    var hasHost: bool
    /** How many OnLineDrawnAsync calls were sent. */
    var linesReported: nat
    const width: real
    const height: real
    const textWidth: string -> real

    /** Both slots hold axis-aligned lines, and at most two current points exist. */
    predicate Valid()
      reads this
    {
      (horz.Some? ==> horz.value.p1.y == horz.value.p2.y) &&
      (vert.Some? ==> vert.value.p1.x == vert.value.p2.x) &&
      |current| <= 2 && (|lastCommitted| == 0 || |lastCommitted| == 2)
    }

    constructor (content: seq<Paint>, width: real, height: real, textWidth: string -> real)
      ensures Valid()
      ensures horz.None? && vert.None? && current == [] && lastCommitted == []
      ensures scaleX == 0.0 && scaleY == 0.0 && snapshot.None? && frame == content
      ensures this.width == width && this.height == height && this.textWidth == textWidth
      ensures linesReported == 0
    {
      horz := None;
      vert := None;
      current := [];
      lastCommitted := [];
      scaleX := 0.0;
      scaleY := 0.0;
      snapshot := None;
      frame := content;
      hasHost := false;
      linesReported := 0;
      this.width := width;
      this.height := height;
      this.textWidth := textWidth;
    }

    /** enableRealSizePicker: the current canvas content becomes the background every
        redraw restores; the slots and the scales survive, the point lists start empty.
        getImageData throws on a canvas with a zero side (canvas sizes are never negative),
        before anything the model holds is touched: `ok` is false and nothing changes. */
    method Enable(host: bool) returns (ok: bool)
      requires Valid()
      modifies this
      ensures Valid()
      ensures ok <==> width > 0.0 && height > 0.0
      ensures !ok ==> snapshot == old(snapshot) && current == old(current) &&
                      lastCommitted == old(lastCommitted) && hasHost == old(hasHost)
      ensures ok ==> snapshot == Some(old(frame)) && current == [] && lastCommitted == [] && hasHost == host
      ensures frame == old(frame)
      ensures horz == old(horz) && vert == old(vert) && scaleX == old(scaleX) && scaleY == old(scaleY)
      ensures linesReported == old(linesReported)
    {
      if width <= 0.0 || height <= 0.0 {
        return false;
      }
      snapshot := Some(frame);
      current := [];
      lastCommitted := [];
      hasHost := host;
      ok := true;
    }

    /** __redrawAll. */
    method Redraw()
      requires snapshot.Some?
      modifies this
      ensures snapshot == old(snapshot)
      ensures frame == snapshot.value + Overlay(horz, vert, current, scaleX, scaleY, width, height, textWidth)
      ensures horz == old(horz) && vert == old(vert) && current == old(current) && lastCommitted == old(lastCommitted)
      ensures scaleX == old(scaleX) && scaleY == old(scaleY)
      ensures hasHost == old(hasHost) && linesReported == old(linesReported)
    {
      var paints := PaintOverlay(horz, vert, current, scaleX, scaleY, width, height, textWidth);
      frame := snapshot.value + paints;
    }

    /** The mouse-move listener: the line in progress follows the pointer, projected. */
    method MouseMove(pos: Point)
      requires Valid() && snapshot.Some?
      modifies this
      ensures Valid() && snapshot == old(snapshot)
      ensures old(current) == [] ==> frame == old(frame) && current == []
      ensures old(current) != [] ==> current == [old(current)[0], Project(old(current)[0], pos).1] &&
                                      frame == snapshot.value + Overlay(horz, vert, current, scaleX, scaleY, width, height, textWidth)
      ensures horz == old(horz) && vert == old(vert) && lastCommitted == old(lastCommitted)
      ensures scaleX == old(scaleX) && scaleY == old(scaleY) && snapshot == old(snapshot)
      ensures hasHost == old(hasHost) && linesReported == old(linesReported)
    {
      if |current| == 0 {
        return;
      }
      var start := current[0];
      var x2 := pos.x;
      var y2 := pos.y;
      if Abs(pos.x - start.x) >= Abs(pos.y - start.y) {
        y2 := start.y;
      } else {
        x2 := start.x;
      }
      current := [start, Point(x2, y2)];
      Redraw();
    }

    /** The mouse-down listener: the first left click records the start; the second
        confirms the projected line into the slot of its axis, leaving the other slot alone,
        and tells the host. */
    method MouseDown(button: int, pos: Point)
      requires Valid() && snapshot.Some?
      modifies this
      ensures Valid() && snapshot == old(snapshot)
      ensures button != 0 ==> horz == old(horz) && vert == old(vert) && current == old(current) &&
                              lastCommitted == old(lastCommitted) && frame == old(frame) && linesReported == old(linesReported)
      ensures button == 0 && old(current) == [] ==>
                current == [pos] && horz == old(horz) && vert == old(vert) &&
                lastCommitted == old(lastCommitted) && frame == old(frame) && linesReported == old(linesReported)
      ensures button == 0 && old(current) != [] ==>
                var start := old(current)[0];
                var p := Project(start, pos);
                (p.0 ==> horz == Some(Line(start, p.1)) && vert == old(vert)) &&
                (!p.0 ==> vert == Some(Line(start, p.1)) && horz == old(horz)) &&
                lastCommitted == [start, p.1] && current == [] &&
                frame == snapshot.value + Overlay(horz, vert, [], scaleX, scaleY, width, height, textWidth) &&
                linesReported == old(linesReported) + (if hasHost then 1 else 0)
      ensures scaleX == old(scaleX) && scaleY == old(scaleY) && snapshot == old(snapshot) && hasHost == old(hasHost)
    {
      if button != 0 {
        return;
      }
      if |current| == 0 {
        current := current + [pos];
        return;
      }
      Confirm(pos);
    }

    /** The second click: the projected line replaces the slot of its axis. */
    method Confirm(pos: Point)
      requires Valid() && snapshot.Some? && current != []
      modifies this
      ensures Valid() && snapshot == old(snapshot)
      ensures var start := old(current)[0];
              var p := Project(start, pos);
              (p.0 ==> horz == Some(Line(start, p.1)) && vert == old(vert)) &&
              (!p.0 ==> vert == Some(Line(start, p.1)) && horz == old(horz)) &&
              lastCommitted == [start, p.1] && current == [] &&
              frame == snapshot.value + Overlay(horz, vert, [], scaleX, scaleY, width, height, textWidth) &&
              linesReported == old(linesReported) + (if hasHost then 1 else 0)
      ensures scaleX == old(scaleX) && scaleY == old(scaleY) && hasHost == old(hasHost)
    {
      var start := current[0];
      var x2 := pos.x;
      var y2 := pos.y;
      var horizontal := Abs(pos.x - start.x) >= Abs(pos.y - start.y);
      if horizontal {
        y2 := start.y;
      } else {
        x2 := start.x;
      }
      var end := Point(x2, y2);
      assert (horizontal, end) == Project(start, pos);
      if horizontal {
        horz := Some(Line(start, end));
      } else {
        vert := Some(Line(start, end));
      }
      lastCommitted := [start, end];
      current := [];
      Redraw();
      if hasHost {
        linesReported := linesReported + 1;
      }
    }

    /** setRealSizeScale: new scales, and an immediate redraw when the picker was enabled. */
    method SetScale(x: real, y: real)
      requires Valid()
      modifies this
      ensures Valid()
      ensures scaleX == x && scaleY == y
      ensures snapshot.Some? ==> frame == snapshot.value + Overlay(horz, vert, current, x, y, width, height, textWidth)
      ensures snapshot.None? ==> frame == old(frame)
      ensures horz == old(horz) && vert == old(vert) && current == old(current) && lastCommitted == old(lastCommitted)
      ensures snapshot == old(snapshot) && hasHost == old(hasHost) && linesReported == old(linesReported)
    {
      scaleX := x;
      scaleY := y;
      if snapshot.Some? {
        Redraw();
      }
    }

    /** getRealSizePoints: the last confirmed line's two points, or none. */
    method GetPoints() returns (pts: seq<Point>)
      requires Valid()
      ensures pts == lastCommitted
      ensures |pts| == 0 || |pts| == 2
    {
      pts := lastCommitted;
    }

    /** clearRealSizePoints: both slots and both point lists emptied, the canvas cleared. */
    method Clear()
      modifies this
      ensures Valid()
      ensures horz.None? && vert.None? && current == [] && lastCommitted == [] && frame == []
      ensures scaleX == old(scaleX) && scaleY == old(scaleY) && snapshot == old(snapshot)
      ensures hasHost == old(hasHost) && linesReported == old(linesReported)
    {
      horz := None;
      vert := None;
      current := [];
      lastCommitted := [];
      frame := [];
    }
  }
}
