/** Drawing a new object's rectangle on the layout editor's SVG (enableObjectDrawing): a
    left press starts a dashed rectangle, moving stretches it, and the release reports the
    rounded rectangle to the host when it is larger than the stroke allows. */
module ObjectDrawing {
  import opened Common
  import opened Elements
  import opened Viewport

  /** Twice the stroke width of the rectangle, which is two screen pixels in layout units,
      as the smallest side a drawn object may have: 4 / ctm.a, with a scale of 1 when the
      SVG has no screen transform. None stands for the infinite threshold of a zero scale. */
  function MinSide(ctmScale: Option<real>): (t: Option<real>)
    ensures ctmScale.None? ==> t == Some(4.0)
    ensures t.None? <==> ctmScale == Some(0.0)
    ensures t.Some? && ctmScale.Some? ==> t.value * ctmScale.value == 4.0
  {
    var scale := if ctmScale.Some? then ctmScale.value else 1.0;
    if scale == 0.0 then None else Some(2.0 * ((1.0 / scale) * 2.0))
  }

  /** Whether a rectangle is large enough on either side to be reported. */
  predicate LargeEnough(r: Rect, ctmScale: Option<real>)
  {
    var t := MinSide(ctmScale);
    t.Some? && (r.w > t.value || r.h > t.value)
  }

  /** The release: the rectangle between press and release, reported rounded when it is
      large enough. */
  function Drawn(start: Point, end: Point, ctmScale: Option<real>): (r: Option<Request>)
    ensures r.Some? <==> LargeEnough(Normalize(start, end), ctmScale)
    ensures r.Some? ==> r.value.ObjectDrawn? && r.value.width >= 0 && r.value.height >= 0
    ensures r.Some? ==>
              var b := Normalize(start, end);
              Abs(r.value.left as real - b.x) <= 0.5 && Abs(r.value.top as real - b.y) <= 0.5 &&
              Abs(r.value.width as real - b.w) <= 0.5 && Abs(r.value.height as real - b.h) <= 0.5
  {
    var b := Normalize(start, end);
    if LargeEnough(b, ctmScale) then Some(ObjectDrawn(Round(b.x), Round(b.y), Round(b.w), Round(b.h)))
    else None
  }

  /** Dragging from either corner reports the same rectangle. */
  lemma DrawnSymmetric(start: Point, end: Point, ctmScale: Option<real>)
    ensures Drawn(start, end, ctmScale) == Drawn(end, start, ctmScale)
  {
    NormalizeSymmetric(start, end);
  }

  /** At a positive scale a drag no longer than 4 / scale on both axes reports nothing; at
      scale 0 nothing is ever reported. */
  lemma SmallDragsIgnored(start: Point, end: Point, scale: real)
    requires scale > 0.0
    requires Abs(end.x - start.x) * scale <= 4.0 && Abs(end.y - start.y) * scale <= 4.0
    ensures Drawn(start, end, Some(scale)).None?
    ensures Drawn(start, end, Some(0.0)).None?
  {
    var t := MinSide(Some(scale)).value;
    var b := Normalize(start, end);
    assert t * scale == 4.0;
    UnscaleLe(b.w, t, scale);
    UnscaleLe(b.h, t, scale);
  }

  lemma UnscaleLe(x: real, y: real, s: real)
    requires s > 0.0 && x * s <= y * s
    ensures x <= y
  {
  }

  /** Without a screen transform, a 5-unit drag on one axis is enough. */
  lemma FiveUnitsWithoutTransform(start: Point)
    ensures Drawn(start, Point(start.x + 5.0, start.y), None).Some?
  {
  }

  /** The state of the drawing handlers: whether a rectangle is being drawn, its start,
      the dashed rectangle shown, and how many such rectangles were left behind in the SVG
      by a press that arrived while one was shown. */
  datatype DrawState = DrawState(isDrawing: bool, start: Option<Point>, outline: Option<Rect>, stale: nat)

  /** The mouse-down listener: a left press with layout coordinates starts a rectangle of
      size zero and disables panning (the Boolean result). */
  function Press(s: DrawState, button: int, world: Option<Point>): (r: (DrawState, bool))
    ensures r.1 <==> button == 0 && world.Some?
    ensures r.1 ==> r.0.isDrawing && r.0.start == world &&
                    r.0.outline == Some(Rect(world.value.x, world.value.y, 0.0, 0.0)) &&
                    r.0.stale == (if s.outline.Some? then s.stale + 1 else s.stale)
    ensures !r.1 ==> r.0 == s
  {
    if button != 0 || world.None? then (s, false)
    else
      var w := world.value;
      (DrawState(true, Some(w), Some(Rect(w.x, w.y, 0.0, 0.0)), if s.outline.Some? then s.stale + 1 else s.stale), true)
  }

  /** The mouse-move listener: the rectangle follows the pointer. */
  function Stretch(s: DrawState, world: Option<Point>): (r: DrawState)
    ensures r.isDrawing == s.isDrawing && r.start == s.start && r.stale == s.stale
    ensures s.isDrawing && s.start.Some? && s.outline.Some? && world.Some? ==> r.outline == Some(Normalize(s.start.value, world.value))
    ensures !(s.isDrawing && s.start.Some? && s.outline.Some? && world.Some?) ==> r == s
  {
    if !s.isDrawing || s.outline.None? || s.start.None? || world.None? then s
    else s.(outline := Some(Normalize(s.start.value, world.value)))
  }

  /** The mouse-up listener (any button): ends the drawing and reports the rectangle when
      it is large enough. The report is awaited without a catch: when the host rejects it
      (`rejected`), the listener stops there, so the start is kept and panning stays off.
      Otherwise the start is forgotten and panning re-enabled (the Boolean result). */
  function Release(s: DrawState, world: Option<Point>, ctmScale: Option<real>, rejected: bool): (r: (DrawState, Option<Request>, bool))
  {
    if !s.isDrawing then (s, None, false)
    else
      var sent := if s.outline.Some? && world.Some? && s.start.Some? then Drawn(s.start.value, world.value, ctmScale) else None;
      if sent.Some? && rejected then (DrawState(false, s.start, None, s.stale), sent, false)
      else (DrawState(false, None, None, s.stale), sent, true)
  }

  /** A release always ends the drawing and removes the rectangle; it reports at most what
      the rectangle from the start to the release point gives. The start is forgotten and
      panning re-enabled exactly when no report was rejected. */
  lemma ReleaseEnds(s: DrawState, world: Option<Point>, ctmScale: Option<real>, rejected: bool)
    ensures var r := Release(s, world, ctmScale, rejected);
            (r.2 <==> s.isDrawing && !(r.1.Some? && rejected)) &&
            (s.isDrawing ==> !r.0.isDrawing && r.0.outline.None? && r.0.stale == s.stale) &&
            (s.isDrawing ==> (r.0.start.None? <==> r.2) && (!r.2 ==> r.0.start == s.start)) &&
            (!s.isDrawing ==> r.0 == s && r.1.None?) &&
            (r.1.Some? ==> s.start.Some? && world.Some? && r.1 == Drawn(s.start.value, world.value, ctmScale))
  {
  }

  /** Whether the host accepts or rejects it, the report is the same; only what the
      listener does after it differs. */
  lemma RejectionKeepsReport(s: DrawState, world: Option<Point>, ctmScale: Option<real>)
    ensures Release(s, world, ctmScale, true).1 == Release(s, world, ctmScale, false).1
    ensures Release(s, world, ctmScale, true).1.None? ==> Release(s, world, ctmScale, true) == Release(s, world, ctmScale, false)
  {
  }

  /** Press, any moves, release: what is reported depends only on the two end points. */
  lemma MovesDoNotMatter(s: DrawState, p: Point, moves: seq<Option<Point>>, q: Point, ctmScale: Option<real>, rejected: bool)
    ensures var s1 := Press(s, 0, Some(p)).0;
            Release(StretchAll(s1, moves), Some(q), ctmScale, rejected).1 == Drawn(p, q, ctmScale)
  {
    StretchAllKeeps(Press(s, 0, Some(p)).0, moves);
  }

  function StretchAll(s: DrawState, moves: seq<Option<Point>>): DrawState
  {
    if moves == [] then s else Stretch(StretchAll(s, DropLast(moves)), Last(moves))
  }

  lemma {:induction false} StretchAllKeeps(s: DrawState, moves: seq<Option<Point>>)
    requires s.outline.Some?
    ensures var r := StretchAll(s, moves);
            r.isDrawing == s.isDrawing && r.start == s.start && r.outline.Some? && r.stale == s.stale
  {
    if moves != [] {
      StretchAllKeeps(s, DropLast(moves));
    }
  }

  /** The handlers of enableObjectDrawing on one SVG element. */
  class RectDrawer {
    var isDrawing: bool
    var start: Option<Point>
    /** The dashed rectangle on the SVG, while there is one. */
    var outline: Option<Rect>
    /** Dashed rectangles left in the SVG that no handler refers to any more. */
    var stale: nat
    /** Every call sent to the host, in order. */
    var outbox: seq<Request>
    /** The pan controller of the same SVG, if panning was enabled on it. */
    const pan: PanZoom?

    function State(): DrawState
      reads this
    {
      DrawState(isDrawing, start, outline, stale)
    }

    constructor (pan: PanZoom?)
      ensures State() == DrawState(false, None, None, 0) && outbox == [] && this.pan == pan
    {
      isDrawing := false;
      start := None;
      outline := None;
      stale := 0;
      outbox := [];
      this.pan := pan;
    }

    method MouseDown(button: int, world: Option<Point>)
      modifies this, pan
      ensures (State(), outbox) == (Press(old(State()), button, world).0, old(outbox))
      ensures pan != null ==> pan.Geometry() == old(pan.Geometry())
      ensures pan != null && Press(old(State()), button, world).1 ==> !pan.panEnabled && !pan.isPanning
      ensures pan != null && !Press(old(State()), button, world).1 ==> pan.panEnabled == old(pan.panEnabled) && pan.isPanning == old(pan.isPanning)
    {
      if button != 0 {
        return;
      }
      if world.None? {
        return;
      }
      isDrawing := true;
      start := world;
      if outline.Some? {
        stale := stale + 1;
      }
      outline := Some(Rect(world.value.x, world.value.y, 0.0, 0.0));
      if pan != null {
        pan.SetPanEnabled(false);
      }
    }

    method MouseMove(world: Option<Point>)
      modifies this
      ensures State() == Stretch(old(State()), world) && outbox == old(outbox)
    {
      if !isDrawing || outline.None? || start.None? {
        return;
      }
      if world.None? {
        return;
      }
      outline := Some(Normalize(start.value, world.value));
    }

    /** The rectangle the release reports, if it is large enough. */
    method Report(world: Option<Point>, ctmScale: Option<real>) returns (report: Option<Request>)
      ensures report == (if outline.Some? && world.Some? && start.Some? then Drawn(start.value, world.value, ctmScale) else None)
    {
      report := None;
      if outline.Some? && world.Some? && start.Some? {
        var b := Normalize(start.value, world.value);
        var t := MinSide(ctmScale);
        if t.Some? && (b.w > t.value || b.h > t.value) {
          report := Some(ObjectDrawn(Round(b.x), Round(b.y), Round(b.w), Round(b.h)));
        }
      }
    }

    /** The mouse-up listener; `rejected` says whether the host rejects the report. */
    method MouseUp(world: Option<Point>, ctmScale: Option<real>, rejected: bool)
      modifies this, pan
      ensures var r := Release(old(State()), world, ctmScale, rejected);
              State() == r.0 && outbox == old(outbox) + (if r.1.Some? then [r.1.value] else [])
      ensures pan != null ==> pan.Geometry() == old(pan.Geometry())
      ensures pan != null && Release(old(State()), world, ctmScale, rejected).2 ==> pan.panEnabled && pan.isPanning == old(pan.isPanning)
      ensures pan != null && !Release(old(State()), world, ctmScale, rejected).2 ==> pan.panEnabled == old(pan.panEnabled) && pan.isPanning == old(pan.isPanning)
    {
      if !isDrawing {
        return;
      }
      isDrawing := false;
      var report := Report(world, ctmScale);
      outline := None;
      if report.Some? {
        outbox := outbox + [report.value];
        if rejected {
          return;
        }
      }
      start := None;
      if pan != null {
        pan.SetPanEnabled(true);
      }
    }
  }
}
