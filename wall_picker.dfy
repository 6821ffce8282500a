/** The wall tracer on a canvas: clicks place snapped points, a click near the
    first point closes the trace. Two variants exist: the layout editor's
    (enableEditorWallPicker) and the drawing extractor's (enableWallPicker). */
module WallPicker {
  import opened Common
  import opened Snapping

  /** Which of the two tracers is attached. They differ in two places: the
      extractor ignores clicks once the trace is closed and draws the closing
      segment only when closed; the editor does neither and marks the preview end. */
  datatype Variant = Editor | Extractor

  /** The traced polygon and whether it has been closed. */
  datatype Trace = Trace(points: seq<Point>, finished: bool)

  /** What a click does to the trace (the mouse-down handler, left button). */
  function Click(v: Variant, t: Trace, pos: Point, trig: Trig): (r: Trace)
  {
    if v == Extractor && t.finished then t
    else if |t.points| >= 3 && IsNear(pos, t.points[0]) then Trace(t.points, true)
    else Trace(t.points + [Place(pos, t.points, trig)], t.finished)
  }

  /** A click either closes the trace or appends exactly one point; placed points never change. */
  lemma ClickShape(v: Variant, t: Trace, pos: Point, trig: Trig)
    ensures var r := Click(v, t, pos, trig);
            |r.points| <= |t.points| + 1 && r.points[..|t.points|] == t.points
    ensures var r := Click(v, t, pos, trig);
            |r.points| == |t.points| + 1 <==> !(v == Extractor && t.finished) && !(|t.points| >= 3 && IsNear(pos, t.points[0]))
  {
    var r := Click(v, t, pos, trig);
    if |r.points| == |t.points| + 1 {
      assert r.points[..|t.points|] == t.points;
    } else {
      assert r.points[..|t.points|] == r.points;
    }
  }

  /** Closing: with at least three points, a click within 15 of the first point sets
      finished and appends nothing (unless the extractor's trace is already closed). */
  lemma ClickNearFirstCloses(v: Variant, t: Trace, pos: Point, trig: Trig)
    requires |t.points| >= 3 && DistSq(pos, t.points[0]) <= 225.0
    ensures Click(v, t, pos, trig) == Trace(t.points, true)
  {
  }

  /** The first three clicks never close: a trace needs three points before it can close. */
  lemma ShortTraceNeverCloses(v: Variant, t: Trace, pos: Point, trig: Trig)
    requires |t.points| < 3 && !t.finished
    ensures Click(v, t, pos, trig) == Trace(t.points + [Place(pos, t.points, trig)], false)
  {
  }

  /** The editor's tracer keeps appending after closing: a click away from the first
      point of a closed trace still adds a point. */
  lemma EditorAppendsAfterClose(t: Trace, pos: Point, trig: Trig)
    requires t.finished && |t.points| >= 3 && DistSq(pos, t.points[0]) > 225.0
    ensures Click(Editor, t, pos, trig).finished
    ensures |Click(Editor, t, pos, trig).points| == |t.points| + 1
  {
  }

  /** A run of clicks, in order. */
  function Clicks(v: Variant, t: Trace, ps: seq<Point>, trig: Trig): Trace
  {
    if ps == [] then t else Click(v, Clicks(v, t, DropLast(ps), trig), Last(ps), trig)
  }

  /** Once the extractor's trace is closed, no sequence of clicks changes it. */
  lemma {:induction false} ExtractorClosedIsFrozen(t: Trace, ps: seq<Point>, trig: Trig)
    requires t.finished
    ensures Clicks(Extractor, t, ps, trig) == t
  {
    if ps != [] {
      ExtractorClosedIsFrozen(t, DropLast(ps), trig);
    }
  }

  /** The number of points grows by at most one per click, for either tracer. */
  lemma {:induction false} ClicksGrowAtMostOnePerClick(v: Variant, t: Trace, ps: seq<Point>, trig: Trig)
    ensures var r := Clicks(v, t, ps, trig);
            |t.points| <= |r.points| <= |t.points| + |ps| && r.points[..|t.points|] == t.points
  {
    if ps != [] {
      var mid := Clicks(v, t, DropLast(ps), trig);
      ClicksGrowAtMostOnePerClick(v, t, DropLast(ps), trig);
      ClickShape(v, mid, Last(ps), trig);
      var r := Click(v, mid, Last(ps), trig);
      assert r.points[..|t.points|] == r.points[..|mid.points|][..|t.points|];
    }
  }

  /** What the tracers draw, in canvas coordinates. */
  datatype WallCmd =
    | ClearCanvas
    | Dot(center: Point)          // a placed point
    | Segment(from: Point, to: Point)
    | Guide(from: Point, to: Point)  // the preview line to the pointer
    | Marker(center: Point)       // the editor's mark at the snapped preview end

  /** redrawAll: clear, one dot per point, the segments between consecutive points,
      and the closing segment from the last point back to the first when the variant
      draws it (editor: more than two points; extractor: more than two points and closed). */
  function Redraw(v: Variant, t: Trace): (cmds: seq<WallCmd>)
  {
    [ClearCanvas] + Dots(t.points) + Segments(t.points) + ClosingSegment(v, t)
  }

  function Dots(pts: seq<Point>): (cmds: seq<WallCmd>)
    ensures |cmds| == |pts|
    ensures forall i :: 0 <= i < |pts| ==> cmds[i] == Dot(pts[i])
  {
    if pts == [] then [] else Dots(DropLast(pts)) + [Dot(Last(pts))]
  }

  function Segments(pts: seq<Point>): (cmds: seq<WallCmd>)
    ensures |pts| == 0 ==> cmds == []
    ensures |pts| > 0 ==> |cmds| == |pts| - 1
    ensures forall i :: 0 <= i < |cmds| ==> cmds[i] == Segment(pts[i], pts[i + 1])
  {
    if |pts| < 2 then [] else Segments(DropLast(pts)) + [Segment(pts[|pts| - 2], Last(pts))]
  }

  function ClosingSegment(v: Variant, t: Trace): (cmds: seq<WallCmd>)
    ensures |cmds| <= 1
    ensures cmds != [] <==> |t.points| > 2 && (v == Editor || t.finished)
    ensures cmds != [] ==> cmds[0] == Segment(Last(t.points), t.points[0])
  {
    if |t.points| > 2 && (v == Editor || t.finished) then [Segment(Last(t.points), t.points[0])] else []
  }

  /** The editor draws the closing segment of any trace of three or more points,
      closed or not; the extractor only once the trace is closed. */
  lemma ClosingSegmentDiffers(t: Trace)
    requires |t.points| > 2 && !t.finished
    ensures |Redraw(Editor, t)| == |Redraw(Extractor, t)| + 1
  {
  }

  /** What a click leaves on the canvas: the redraw of the new trace, plus, in the
      editor, the closing segment drawn once more when the click closed the trace.
      A click the extractor ignores draws nothing. */
  function ClickDrawing(v: Variant, t: Trace, pos: Point, trig: Trig, before: seq<WallCmd>): (cmds: seq<WallCmd>)
    ensures v == Extractor && t.finished ==> cmds == before
    ensures !(v == Extractor && t.finished) ==>
              var redraw := Redraw(v, Click(v, t, pos, trig));
              |redraw| <= |cmds| <= |redraw| + 1 && cmds[..|redraw|] == redraw
  {
    if v == Extractor && t.finished then before
    else
      var r := Click(v, t, pos, trig);
      var closedNow := |t.points| >= 3 && IsNear(pos, t.points[0]);
      Redraw(v, r) + (if closedNow && v == Editor then [Segment(Last(t.points), t.points[0])] else [])
  }

  /** The preview line drawn while the pointer moves: nothing once closed or before the
      first point; otherwise the line from the last point to the snapped pointer position,
      with a marker at its end in the editor. The points are never touched. */
  function Preview(v: Variant, t: Trace, pos: Point, trig: Trig): (cmds: seq<WallCmd>)
    ensures t.finished || t.points == [] <==> cmds == []
    ensures cmds != [] ==>
              var target := SnapAngle(Last(t.points), SnapPoint(pos, t.points), trig).point;
              cmds[|cmds| - 1] == (if v == Editor then Marker(target) else Guide(Last(t.points), target))
  {
    if t.finished || t.points == [] then []
    else
      var last := Last(t.points);
      var target := SnapAngle(last, SnapPoint(pos, t.points), trig).point;
      Redraw(v, t) + [Guide(last, target)] + (if v == Editor then [Marker(target)] else [])
  }

  lemma ClickCloses(v: Variant, t: Trace, pos: Point, trig: Trig, before: seq<WallCmd>)
    requires !(v == Extractor && t.finished) && |t.points| >= 3 && IsNear(pos, t.points[0])
    ensures Click(v, t, pos, trig) == Trace(t.points, true)
    ensures ClickDrawing(v, t, pos, trig, before)
            == Redraw(v, Trace(t.points, true)) + (if v == Editor then [Segment(Last(t.points), t.points[0])] else [])
  {
  }

  lemma ClickAppends(v: Variant, t: Trace, pos: Point, trig: Trig, before: seq<WallCmd>)
    requires !(v == Extractor && t.finished) && !(|t.points| >= 3 && IsNear(pos, t.points[0]))
    ensures Click(v, t, pos, trig) == Trace(t.points + [Place(pos, t.points, trig)], t.finished)
    ensures ClickDrawing(v, t, pos, trig, before) == Redraw(v, Click(v, t, pos, trig))
  {
  }

  /** A canvas element with a tracer attached to it. The points, the closed flag and the
      enabled flag live on the canvas, so they survive re-enabling. */
  class WallCanvas {
    var points: seq<Point>
    var finished: bool
    /** The tracer whose listeners are attached; None before the first enable. */
    var picker: Option<Variant>
    /** The commands drawn on the canvas since it was last cleared. */
    var frame: seq<WallCmd>

    constructor ()
      ensures points == [] && !finished && picker == None && frame == []
    {
      points := [];
      finished := false;
      picker := None;
      frame := [];
    }

    function Current(): Trace
      reads this
    {
      Trace(points, finished)
    }

    /** enableEditorWallPicker / enableWallPicker: a no-op when a tracer is already
      attached; otherwise attaches the tracer, keeps the points already on the canvas
      and reopens the trace. */
    method Enable(v: Variant)
      modifies this
      ensures old(picker).Some? ==> picker == old(picker) && finished == old(finished)
      ensures old(picker).None? ==> picker == Some(v) && !finished
      ensures points == old(points) && frame == old(frame)
    {
      if picker.Some? {
        return;
      }
      picker := Some(v);
      finished := false;
    }

    /** The mouse-down listener. */
    method MouseDown(button: int, pos: Point, trig: Trig)
      modifies this
      ensures picker == old(picker)
      ensures picker.Some? && button == 0 ==> Current() == Click(picker.value, old(Current()), pos, trig)
      ensures picker.Some? && button == 0 ==> frame == ClickDrawing(picker.value, old(Current()), pos, trig, old(frame))
      ensures picker.None? || button != 0 ==> Current() == old(Current()) && frame == old(frame)
    {
      if picker.None? || button != 0 {
        return;
      }
      var v := picker.value;
      ghost var t0 := Current();
      ghost var f0 := frame;
      if v == Extractor && finished {
        return;
      }
      if |points| >= 3 && IsNear(pos, points[0]) {
        ClickCloses(v, t0, pos, trig, f0);
        CloseTrace(v);
        return;
      }
      var finalPos := SnapToExistingPoints(pos, points);
      if |points| > 0 {
        finalPos := SnapAngle(Last(points), finalPos, trig).point;
      }
      ClickAppends(v, t0, pos, trig, f0);
      AppendPoint(v, finalPos);
    }

    /** The closing branch of the mouse-down listener: the trace is closed and redrawn,
      and the editor draws the closing segment once more. */
    method CloseTrace(v: Variant)
      requires |points| >= 3
      modifies this
      ensures points == old(points) && finished && picker == old(picker)
      ensures frame == Redraw(v, Current()) + (if v == Editor then [Segment(Last(points), points[0])] else [])
    {
      finished := true;
      var t := Trace(points, finished);
      var cmds := RedrawAll(v, t);
      if v == Editor {
        cmds := cmds + [Segment(Last(points), points[0])];
      }
      frame := cmds;
    }

    /** The appending branch of the mouse-down listener: the placed point is added and
      the trace redrawn. */
    method AppendPoint(v: Variant, p: Point)
      modifies this
      ensures points == old(points) + [p] && finished == old(finished) && picker == old(picker)
      ensures frame == Redraw(v, Current())
    {
      points := points + [p];
      var t := Trace(points, finished);
      var cmds := RedrawAll(v, t);
      frame := cmds;
      assert Current() == t;
    }

    /** The mouse-move listener: redraws with the preview line; the trace is unchanged. */
    method MouseMove(pos: Point, trig: Trig)
      modifies this
      ensures Current() == old(Current()) && picker == old(picker)
      ensures picker.Some? && !finished && points != [] ==> frame == Preview(picker.value, Current(), pos, trig)
      ensures picker.None? || finished || points == [] ==> frame == old(frame)
    {
      if picker.None? || finished || points == [] {
        return;
      }
      frame := Preview(picker.value, Current(), pos, trig);
    }

    /** getEditorWallPoints / getWallPoints. */
    function GetPoints(): (r: seq<Point>)
      reads this
      ensures r == points
    {
      points
    }

    /** clearEditorWallPoints / clearWallPoints: empties the trace, reopens it and
      clears the canvas; the tracer stays attached. */
    method Clear()
      modifies this
      ensures points == [] && !finished && frame == [] && picker == old(picker)
    {
      points := [];
      finished := false;
      frame := [];
    }
  }

  /** redrawAll as the loops that issue the commands. */
  method RedrawAll(v: Variant, t: Trace) returns (cmds: seq<WallCmd>)
    ensures cmds == Redraw(v, t)
  {
    var dots := DrawDots(t.points);
    var segments := DrawSegments(t.points);
    cmds := [ClearCanvas] + dots + segments;
    if |t.points| > 2 && (v == Editor || t.finished) {
      cmds := cmds + [Segment(t.points[|t.points| - 1], t.points[0])];
    }
  }

  /** The loop of redrawAll that marks each point. */
  method DrawDots(pts: seq<Point>) returns (cmds: seq<WallCmd>)
    ensures cmds == Dots(pts)
  {
    cmds := [];
    var i := 0;
    while i < |pts|
      invariant 0 <= i <= |pts|
      invariant cmds == Dots(pts[..i])
    {
      assert DropLast(pts[..i + 1]) == pts[..i];
      cmds := cmds + [Dot(pts[i])];
      i := i + 1;
    }
    assert pts[..i] == pts;
  }

  /** The loop of redrawAll that joins consecutive points. */
  method DrawSegments(pts: seq<Point>) returns (cmds: seq<WallCmd>)
    ensures cmds == Segments(pts)
  {
    cmds := [];
    if pts == [] {
      return;
    }
    var i := 1;
    while i < |pts|
      invariant 1 <= i <= |pts|
      invariant cmds == Segments(pts[..i])
    {
      assert DropLast(pts[..i + 1]) == pts[..i];
      cmds := cmds + [Segment(pts[i - 1], pts[i])];
      i := i + 1;
    }
    assert pts[..i] == pts;
  }
}
