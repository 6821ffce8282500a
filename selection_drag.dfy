/** Selection and dragging of layout elements (enableShelfDragging): click to select,
    shift-click to toggle, drag the selection, Escape to cancel a drag, shift-drag on
    the background to box-select, click the background to clear the selection.

    Every handler is first given as a pure transition on a DragState value, returning
    the next state, the host calls it makes in order, and what it does to the pan gate.
    The DragController class holds the same state in fields and implements the handlers
    step by step; each of its methods is proved to agree with the transition. */
module SelectionDrag {
  import opened Common
  import opened Elements
  import opened Viewport

  /** Pointer travel, in client pixels on either axis, beyond which a press is a drag. */
  const ClickThreshold: real := 5.0

  /** The handler state held in enableShelfDragging's closure. */
  datatype DragState = DragState(
    isDragging: bool,
    dragIds: seq<int>,           // draggedElementIds
    kind: Option<Kind>,          // draggedElementType
    dragStart: Option<Point>,    // dragStartPoint, layout coordinates
    originals: seq<Original>,    // elementsOriginalCoords, in insertion order
    isBoxSelecting: bool,
    boxStart: Option<Point>,     // boxSelectStart, layout coordinates
    box: Option<Rect>,           // the selection rectangle overlay
    mouseDownPos: Option<Point>, // client coordinates of the last left press
    mouseMoved: bool,
    pending: Option<Point>)      // the delta of the scheduled preview frame (previewUpdatePending)

  const Initial: DragState :=
    DragState(false, [], None, None, [], false, None, None, None, false, None)

  /** What a handler does to the pan controller: __setPanEnabled and __resetPanState. */
  datatype PanOp = SetPan(enabled: bool) | ResetPan

  /** A handler's effect: the next state, the host calls in order, the pan operations in order. */
  datatype Step = Step(next: DragState, sent: seq<Request>, pan: seq<PanOp>)

  /** The pan controller's two flags. */
  datatype PanGate = PanGate(enabled: bool, panning: bool)

  function PanAfter(g: PanGate, ops: seq<PanOp>): PanGate
    decreases |ops|
  {
    if ops == [] then g
    else
      var g' := match ops[0]
        case SetPan(e) => PanGate(e, g.panning && e)
        case ResetPan => PanGate(g.enabled, false);
      PanAfter(g', ops[1..])
  }

  // ---------------------------------------------------------------------------
  // The coordinates map
  // ---------------------------------------------------------------------------

  /** Whether the map has an entry for `id`. */
  predicate HasId(os: seq<Original>, id: int)
  {
    exists i :: 0 <= i < |os| && os[i].id == id
  }

  predicate DistinctIds(os: seq<Original>)
  {
    forall i, j :: 0 <= i < j < |os| ==> os[i].id != os[j].id
  }

  function IndexOf(os: seq<Original>, id: int): (r: Option<nat>)
    ensures r.Some? ==> r.value < |os| && os[r.value].id == id
    ensures r.None? ==> !HasId(os, id)
  {
    if os == [] then None
    else if os[0].id == id then Some(0)
    else match IndexOf(os[1..], id)
      case Some(i) => Some(i + 1)
      case None =>
        assert forall i :: 1 <= i < |os| ==> os[i].id == os[1..][i - 1].id;
        None
  }

  /** Map.set: replaces the value of an id already present, in its place, or appends a new entry. */
  function MapSet(os: seq<Original>, id: int, c: seq<Point>): (r: seq<Original>)
    ensures DistinctIds(os) ==> DistinctIds(r)
    ensures forall x :: HasId(r, x) <==> HasId(os, x) || x == id
    ensures forall i :: 0 <= i < |r| ==> r[i] == Original(id, c) || r[i] in os
    ensures !HasId(os, id) ==> r == os + [Original(id, c)]
    ensures HasId(os, id) ==> |r| == |os|
  {
    match IndexOf(os, id)
    case Some(i) =>
      var r := os[i := Original(id, c)];
      assert forall j :: 0 <= j < |r| ==> r[j].id == os[j].id;
      r
    case None =>
      var r := os + [Original(id, c)];
      assert r[|os|].id == id;
      assert forall j :: 0 <= j < |os| ==> r[j] == os[j];
      r
  }

  /** The coordinates captured for a drag: the reply to getCoords for each id in turn,
      kept only when the reply is not null (ids absent from `replies`). */
  function Collect(ids: seq<int>, replies: map<int, seq<Point>>): (r: seq<Original>)
    ensures DistinctIds(r)
    ensures forall id :: HasId(r, id) <==> id in ids && id in replies
    ensures forall i :: 0 <= i < |r| ==> r[i].id in replies && r[i].coords == replies[r[i].id]
  {
    if ids == [] then []
    else
      var r := Collect(DropLast(ids), replies);
      var id := Last(ids);
      assert forall x :: x in ids <==> x in DropLast(ids) || x == id;
      if id in replies then MapSet(r, id, replies[id]) else r
  }

  /** Every point moved by the same whole-number delta. */
  function Shifted(cs: seq<Point>, dx: int, dy: int): (r: seq<Point>)
    ensures |r| == |cs|
    ensures forall j :: 0 <= j < |cs| ==> r[j] == Point(cs[j].x + dx as real, cs[j].y + dy as real)
  {
    seq(|cs|, j requires 0 <= j < |cs| => Point(cs[j].x + dx as real, cs[j].y + dy as real))
  }

  /** The batch of the release: every captured element with every point translated. */
  function Translate(os: seq<Original>, dx: int, dy: int): (r: seq<Original>)
    ensures |r| == |os|
    ensures forall i :: 0 <= i < |os| ==> r[i] == Original(os[i].id, Shifted(os[i].coords, dx, dy))
  {
    seq(|os|, i requires 0 <= i < |os| => Original(os[i].id, Shifted(os[i].coords, dx, dy)))
  }

  /** Translating by the opposite delta restores the captured coordinates. */
  lemma TranslateBack(os: seq<Original>, dx: int, dy: int)
    ensures Translate(Translate(os, dx, dy), -dx, -dy) == os
  {
    var back := Translate(Translate(os, dx, dy), -dx, -dy);
    forall i | 0 <= i < |os|
      ensures back[i] == os[i]
    {
      assert Shifted(Shifted(os[i].coords, dx, dy), -dx, -dy) == os[i].coords;
    }
  }

  /** The loop that builds the batch on release. */
  method BuildBatch(os: seq<Original>, dx: int, dy: int) returns (batch: seq<Original>)
    ensures batch == Translate(os, dx, dy)
  {
    batch := [];
    var i := 0;
    while i < |os|
      invariant 0 <= i <= |os|
      invariant batch == Translate(os[..i], dx, dy)
    {
      batch := batch + [Original(os[i].id, Shifted(os[i].coords, dx, dy))];
      i := i + 1;
    }
    assert os[..i] == os;
  }

  /** The calls that put every captured element back on Escape. */
  function Restores(k: Kind, os: seq<Original>): (r: seq<Request>)
    ensures |r| == |os|
    ensures forall i :: 0 <= i < |os| ==> r[i] == UpdateSingle(k, os[i].id, os[i].coords)
  {
    seq(|os|, i requires 0 <= i < |os| => UpdateSingle(k, os[i].id, os[i].coords))
  }

  method RestoreCalls(k: Kind, os: seq<Original>) returns (reqs: seq<Request>)
    ensures reqs == Restores(k, os)
  {
    reqs := [];
    var i := 0;
    while i < |os|
      invariant 0 <= i <= |os|
      invariant reqs == Restores(k, os[..i])
    {
      reqs := reqs + [UpdateSingle(k, os[i].id, os[i].coords)];
      i := i + 1;
    }
    assert os[..i] == os;
  }

  function CoordCalls(k: Kind, ids: seq<int>): (r: seq<Request>)
    ensures |r| == |ids|
    ensures forall i :: 0 <= i < |ids| ==> r[i] == GetCoords(k, ids[i])
  {
    seq(|ids|, i requires 0 <= i < |ids| => GetCoords(k, ids[i]))
  }

  // ---------------------------------------------------------------------------
  // Transitions
  // ---------------------------------------------------------------------------

  /** resetDragState: clears the drag, cancels a scheduled preview frame, re-enables and
      resets panning, and tells the host. Box selection and the press state are kept. */
  function ResetState(s: DragState): DragState
  {
    s.(isDragging := false, dragIds := [], dragStart := None, originals := [], kind := None, pending := None)
  }

  function ResetStep(s: DragState, before: seq<Request>): Step
  {
    Step(ResetState(s), before + [ResetDrag], [SetPan(true), ResetPan])
  }

  /** A left-button press, as the handler sees it. `chain` is the event target and its
      ancestors; `world` is the press in layout coordinates, None when the screen
      transform is unavailable. */
  datatype Press = Press(button: int, client: Point, shift: bool, world: Option<Point>, chain: seq<Node>)

  /** The host's replies during a press: the current selection (null allowed), the
      coordinates of each element (absent ids reply null), the position of the first host
      call of the drag arming that throws, and the answer of the hit test. */
  datatype PressReplies = PressReplies(selected: Option<seq<int>>, coords: map<int, seq<Point>>,
                                       failAt: Option<nat>, hitFound: bool)

  /** Whether the arming call at position `pos` fails: the host throws there, or the
      kind's row has no coordinates method to call. */
  predicate CoordCallFails(k: Kind, failAt: Option<nat>, base: nat, j: nat)
  {
    failAt == Some(base + j) || !Draggable(k)
  }

  /** The index of the first getCoords call that fails, the calls starting at position `base`. */
  function CoordFailure(k: Kind, ids: seq<int>, failAt: Option<nat>, base: nat): (r: Option<nat>)
    ensures r.Some? ==> r.value < |ids| && CoordCallFails(k, failAt, base, r.value)
    ensures r.Some? ==> forall j: nat :: j < r.value ==> !CoordCallFails(k, failAt, base, j)
    ensures r.None? ==> forall j: nat :: j < |ids| ==> !CoordCallFails(k, failAt, base, j)
  {
    if ids == [] || !Draggable(k) then (if ids == [] then None else Some(0))
    else match failAt
      case Some(f) => if base <= f < base + |ids| then Some(f - base) else None
      case None => None
  }

  lemma CoordFailureAt(k: Kind, ids: seq<int>, failAt: Option<nat>, base: nat, i: nat)
    requires i < |ids| && CoordCallFails(k, failAt, base, i)
    requires forall j: nat :: j < i ==> !CoordCallFails(k, failAt, base, j)
    ensures CoordFailure(k, ids, failAt, base) == Some(i)
  {
  }

  lemma CoordFailureNone(k: Kind, ids: seq<int>, failAt: Option<nat>, base: nat)
    requires forall j: nat :: j < |ids| ==> !CoordCallFails(k, failAt, base, j)
    ensures CoordFailure(k, ids, failAt, base) == None
  {
  }

  lemma CoordCallsSnoc(k: Kind, ids: seq<int>, i: nat)
    requires i < |ids|
    ensures CoordCalls(k, ids[..i + 1]) == CoordCalls(k, ids[..i]) + [GetCoords(k, ids[i])]
  {
    var a, b := CoordCalls(k, ids[..i + 1]), CoordCalls(k, ids[..i]) + [GetCoords(k, ids[i])];
    assert forall j :: 0 <= j < |a| ==> a[j] == b[j];
  }

  lemma CollectSnoc(ids: seq<int>, replies: map<int, seq<Point>>, i: nat)
    requires i < |ids|
    ensures Collect(ids[..i + 1], replies)
            == if ids[i] in replies then MapSet(Collect(ids[..i], replies), ids[i], replies[ids[i]])
               else Collect(ids[..i], replies)
  {
    assert DropLast(ids[..i + 1]) == ids[..i];
  }

  /** The loop of the drag arming that asks for each element's coordinates, stopping at
      the first call that fails. The map the loop fills is only used when no call fails,
      so it is gathered by `CollectCoords` once the calls have all answered. */
  method FetchCoords(k: Kind, ids: seq<int>, replies: map<int, seq<Point>>, failAt: Option<nat>, base: nat)
    returns (os: seq<Original>, calls: seq<Request>, failed: Option<nat>)
    ensures failed == CoordFailure(k, ids, failAt, base)
    ensures failed.Some? ==> calls == CoordCalls(k, ids[..failed.value + 1])
    ensures failed.None? ==> calls == CoordCalls(k, ids) && os == Collect(ids, replies)
  {
    os := [];
    calls := [];
    failed := None;
    var i := 0;
    while i < |ids|
      invariant 0 <= i <= |ids|
      invariant forall j: nat :: j < i ==> !CoordCallFails(k, failAt, base, j)
      invariant calls == CoordCalls(k, ids[..i])
    {
      CoordCallsSnoc(k, ids, i);
      calls := calls + [GetCoords(k, ids[i])];
      if CoordCallFails(k, failAt, base, i) {
        failed := Some(i);
        break;
      }
      i := i + 1;
    }
    if failed.Some? {
      CoordFailureAt(k, ids, failAt, base, i);
    } else {
      CoordFailureNone(k, ids, failAt, base);
      assert ids[..i] == ids;
      os := CollectCoords(ids, replies);
    }
  }

  /** The map.set of each answer that holds coordinates, in the order of the ids. */
  method CollectCoords(ids: seq<int>, replies: map<int, seq<Point>>) returns (os: seq<Original>)
    ensures os == Collect(ids, replies)
  {
    os := [];
    var i := 0;
    while i < |ids|
      invariant 0 <= i <= |ids|
      invariant os == Collect(ids[..i], replies)
    {
      CollectSnoc(ids, replies, i);
      if ids[i] in replies {
        os := MapSet(os, ids[i], replies[ids[i]]);
      }
      i := i + 1;
    }
    assert ids[..i] == ids;
  }

  /** The capture part of the drag arming, once the ids to drag are known: ask for each
      element's coordinates; a failing call sends the state to resetDragState, otherwise the
      press is recorded and panning disabled. */
  function Capture(s: DragState, k: Kind, ids: seq<int>, w: Point, rep: PressReplies, base: nat): Step
  {
    match CoordFailure(k, ids, rep.failAt, base)
    case Some(i) => ResetStep(s, CoordCalls(k, ids[..i + 1]))
    case None =>
      Step(s.(dragIds := ids, kind := Some(k), originals := Collect(ids, rep.coords), dragStart := Some(w)),
           CoordCalls(k, ids), [SetPan(false)])
  }

  /** A step preceded by host calls that do not change the handler state. */
  function After(calls: seq<Request>, st: Step): Step
  {
    Step(st.next, calls + st.sent, st.pan)
  }

  /** The drag arming of a press on an element without shift: read the selection, select
      the element alone unless it is already selected, fetch the coordinates of every
      element to drag, then record the press and disable panning. A host call that throws
      sends the state to resetDragState. */
  function Arm(s: DragState, k: Kind, id: int, w: Point, rep: PressReplies): Step
  {
    if rep.failAt == Some(0) then ResetStep(s, [GetIds(k)])
    else if rep.selected.Some? && id in rep.selected.value then
      After([GetIds(k)], Capture(s, k, rep.selected.value, w, rep, 1))
    else if rep.failAt == Some(1) then ResetStep(s, [GetIds(k), Select(k, id)])
    else After([GetIds(k), Select(k, id)], Capture(s, k, [id], w, rep, 2))
  }

  /** The mouse-down handler. */
  function Down(s: DragState, root: nat, e: Press, rep: PressReplies): Step
  {
    if e.button != 0 then Step(s, [], [])
    else PressOn(s.(mouseDownPos := Some(e.client), mouseMoved := false), root, e, rep)
  }

  /** The mouse-down handler once a left press is recorded: nothing while dragging or
      without layout coordinates; a shift press on an element toggles it; a plain press
      on an element arms a drag; a press on the background probes for an element and,
      with shift and no hit, starts a box selection. */
  function PressOn(s: DragState, root: nat, e: Press, rep: PressReplies): Step
  {
    if s.isDragging || e.world.None? then Step(s, [], [])
    else
      var w := e.world.value;
      match FindFrom(e.chain, root, 0)
      case Some(i) =>
        var n := e.chain[i];
        var k := KindNamed(n.elementType.value);
        if k.None? then Step(s, [], [])
        else if e.shift then Step(s, [Toggle(k.value, n.elementId)], [])
        else Arm(s, k.value, n.elementId, w, rep)
      case None =>
        var probe := [TrySelectAt(w.x, w.y, e.shift)];
        if rep.hitFound then Step(s, probe, [])
        else if e.shift then
          Step(s.(isBoxSelecting := true, boxStart := Some(w), box := Some(Rect(w.x, w.y, 0.0, 0.0))),
               probe, [SetPan(false)])
        else Step(s, probe, [])
  }

  /** Whether the pointer has left the click threshold around the press. */
  predicate PastThreshold(press: Option<Point>, client: Point)
  {
    press.Some? && (Abs(client.x - press.value.x) > ClickThreshold || Abs(client.y - press.value.y) > ClickThreshold)
  }

  /** First part of the mouse-move handler: a pointer more than 5 pixels from the press
      on either axis marks the press as moved. */
  function NoteMovement(s: DragState, client: Point): DragState
  {
    s.(mouseMoved := s.mouseMoved || PastThreshold(s.mouseDownPos, client))
  }

  /** Second part: an armed drag whose pointer moved becomes a drag, and the host is told
      of its first element. */
  function StartDrag(s: DragState): Step
  {
    if !s.isDragging && s.dragStart.Some? && |s.originals| > 0 && s.mouseMoved then
      Step(s.(isDragging := true),
           if s.kind.Some? && |s.dragIds| > 0 then [DragStart(s.kind.value, s.dragIds[0])] else [], [])
    else Step(s, [], [])
  }

  /** Third part: a drag records the pending delta when no frame is scheduled yet (the
      scheduled frame keeps the first delta); a box selection stretches its rectangle. */
  function Track(s: DragState, w: Point): DragState
  {
    if s.isDragging && s.dragStart.Some? then
      var d := Point(w.x - s.dragStart.value.x, w.y - s.dragStart.value.y);
      if s.pending.None? then s.(pending := Some(d)) else s
    else if s.isBoxSelecting && s.boxStart.Some? && s.box.Some? then
      s.(box := Some(Normalize(s.boxStart.value, w)))
    else s
  }

  /** The mouse-move handler. */
  function Move(s: DragState, client: Point, world: Option<Point>): Step
  {
    var s1 := NoteMovement(s, client);
    if world.None? then Step(s1, [], [])
    else
      var st := StartDrag(s1);
      Step(Track(st.next, world.value), st.sent, [])
  }

  /** Release of a drag: the batch of translated coordinates when the whole-number delta
      is not zero, after resetDragState. */
  function FinishDrag(s: DragState, w: Point): Step
    requires s.dragStart.Some?
  {
    var dx := Round(w.x - s.dragStart.value.x);
    var dy := Round(w.y - s.dragStart.value.y);
    var batch := if (dx != 0 || dy != 0) && s.kind.Some?
                 then [UpdateBatch(s.kind.value, Translate(s.originals, dx, dy))] else [];
    Step(ResetState(s), [ResetDrag] + batch, [SetPan(true), ResetPan])
  }

  /** Release of an armed drag that never moved: the click only selected. */
  function Disarm(s: DragState): Step
  {
    Step(s.(dragStart := None, originals := [], dragIds := [], kind := None), [], [SetPan(true)])
  }

  /** Release of a box selection: the host selects inside the normalised rectangle. */
  function FinishBox(s: DragState, w: Point, shift: bool): Step
    requires s.boxStart.Some?
  {
    var b := Normalize(s.boxStart.value, w);
    Step(s.(box := None, isBoxSelecting := false), [SelectInRect(b.x, b.y, b.w, b.h, shift)], [SetPan(true)])
  }

  /** The branches of the mouse-up handler: end a drag, end a click on an element, end a
      box selection, or clear the selection after a click on the background. */
  function Release(s: DragState, root: nat, world: Option<Point>, shift: bool, chain: seq<Node>): Step
  {
    if s.isDragging && world.Some? && s.dragStart.Some? then FinishDrag(s, world.value)
    else if s.dragStart.Some? && !s.mouseMoved then Disarm(s)
    else if s.isBoxSelecting && s.boxStart.Some? && world.Some? then FinishBox(s, world.value, shift)
    else if s.mouseDownPos.Some? && !s.mouseMoved && !shift && FindFrom(chain, root, 0).None? then
      Step(s, [ClearSelection], [])
    else Step(s, [], [])
  }

  /** Whether the release awaits the batch update without a catch: only the end of a drag
      whose rounded delta is not zero, with a known kind, sends one. */
  predicate AwaitsBatch(s: DragState, world: Option<Point>)
  {
    s.isDragging && world.Some? && s.dragStart.Some? && s.kind.Some? &&
    (Round(world.value.x - s.dragStart.value.x) != 0 || Round(world.value.y - s.dragStart.value.y) != 0)
  }

  /** The mouse-up handler: the branch, then the press is forgotten. When the host rejects
      the awaited batch (`rejected`), the handler stops before forgetting the press. */
  function Up(s: DragState, root: nat, world: Option<Point>, shift: bool, chain: seq<Node>, rejected: bool): Step
  {
    var r := Release(s, root, world, shift, chain);
    if rejected && AwaitsBatch(s, world) then r
    else Step(r.next.(mouseDownPos := None, mouseMoved := false), r.sent, r.pan)
  }

  /** A rejected batch changes only the press record: the calls, the pan operations and
      the drag fields are those of an accepted one, while the press and its movement flag
      stay as they were. Any other release is unaffected by `rejected`. */
  lemma RejectedBatchKeepsPress(s: DragState, root: nat, world: Option<Point>, shift: bool, chain: seq<Node>)
    ensures var t, f := Up(s, root, world, shift, chain, true), Up(s, root, world, shift, chain, false);
            t.sent == f.sent && t.pan == f.pan &&
            t.next.(mouseDownPos := None, mouseMoved := false) == f.next &&
            (AwaitsBatch(s, world) ==> t.next.mouseDownPos == s.mouseDownPos && t.next.mouseMoved == s.mouseMoved) &&
            (!AwaitsBatch(s, world) ==> t == f)
  {
    if AwaitsBatch(s, world) {
      assert Release(s, root, world, shift, chain) == FinishDrag(s, world.value);
    }
  }

  /** The key-down handler: Escape during a drag puts every element back and cancels. */
  function Key(s: DragState, key: string): Step
  {
    if key == "Escape" && s.isDragging then
      var restore := if s.kind.Some? then Restores(s.kind.value, s.originals) else [];
      Step(ResetState(s), restore + [ResetDrag, EscapePressed], [SetPan(true), ResetPan])
    else Step(s, [], [])
  }

  /** Where the preview frame puts an element's rectangle. */
  datatype Placement = Placement(id: int, at: Point)

  /** The preview's grid snap: the nearest multiple of the grid size. */
  function GridSnap(v: real, snapOn: bool, grid: real): (r: real)
    ensures snapOn && grid > 0.0 ==> Abs(r - v) <= grid / 2.0 && r == Round(v / grid) as real * grid
    ensures !(snapOn && grid > 0.0) ==> r == v
  {
    if snapOn && grid > 0.0 then
      var n := Round(v / grid);
      ScaleBounds(n as real - 0.5, v / grid, n as real + 0.5, grid);
      n as real * grid
    else v
  }

  lemma ScaleBounds(lo: real, a: real, hi: real, g: real)
    requires lo <= a < hi && g > 0.0
    ensures lo * g <= a * g < hi * g
  {
  }

  /** One element's placement in the preview: its first point moved by the delta, snapped;
      nothing for an element without points. */
  function PlaceOne(o: Original, d: Point, snapOn: bool, grid: real): seq<Placement>
  {
    if |o.coords| > 0 then
      [Placement(o.id, Point(GridSnap(o.coords[0].x + d.x, snapOn, grid), GridSnap(o.coords[0].y + d.y, snapOn, grid)))]
    else []
  }

  function Placements(os: seq<Original>, d: Point, snapOn: bool, grid: real): (r: seq<Placement>)
    ensures |r| <= |os|
  {
    if os == [] then []
    else Placements(DropLast(os), d, snapOn, grid) + PlaceOne(Last(os), d, snapOn, grid)
  }

  /** The loop of the preview frame over the captured elements. */
  method PreviewPlacements(os: seq<Original>, d: Point, snapOn: bool, grid: real) returns (placed: seq<Placement>)
    ensures placed == Placements(os, d, snapOn, grid)
  {
    placed := [];
    var i := 0;
    while i < |os|
      invariant 0 <= i <= |os|
      invariant placed == Placements(os[..i], d, snapOn, grid)
    {
      assert DropLast(os[..i + 1]) == os[..i];
      var o := os[i];
      if |o.coords| > 0 {
        var x := GridSnap(o.coords[0].x + d.x, snapOn, grid);
        var y := GridSnap(o.coords[0].y + d.y, snapOn, grid);
        placed := placed + [Placement(o.id, Point(x, y))];
      }
      i := i + 1;
    }
    assert os[..i] == os;
  }

  /** The animation frame scheduled by a move during a drag: places every element at its
      original position moved by the frame's delta, then clears the pending flag. */
  function Frame(s: DragState, snapOn: bool, grid: real): (r: (DragState, seq<Placement>))
    requires s.pending.Some?
  {
    (s.(pending := None), Placements(s.originals, s.pending.value, snapOn, grid))
  }

  // ---------------------------------------------------------------------------
  // Properties of the transitions
  // ---------------------------------------------------------------------------

  /** A drag is only ever prepared for a kind that has the drag methods. */
  ghost predicate Inv(s: DragState)
  {
    s.dragStart.Some? ==> s.kind.Some? && Draggable(s.kind.value)
  }

  lemma InitialInv()
    ensures Inv(Initial)
  {
  }

  lemma DownKeepsInv(s: DragState, root: nat, e: Press, rep: PressReplies)
    requires Inv(s)
    ensures Inv(Down(s, root, e, rep).next)
  {
  }

  lemma MoveKeepsInv(s: DragState, client: Point, world: Option<Point>)
    requires Inv(s)
    ensures Inv(Move(s, client, world).next)
  {
  }

  lemma UpKeepsInv(s: DragState, root: nat, world: Option<Point>, shift: bool, chain: seq<Node>, rejected: bool)
    requires Inv(s)
    ensures Inv(Up(s, root, world, shift, chain, rejected).next)
  {
  }

  lemma KeyKeepsInv(s: DragState, key: string)
    requires Inv(s)
    ensures Inv(Key(s, key).next)
  {
  }

  /** What the invariant buys: in a state that holds it, every call a move or a release
      sends names a host method, so the drag start and the batch update are never sent for
      a kind without one. */
  lemma InvNamesDragCalls(s: DragState, root: nat, client: Point, world: Option<Point>, shift: bool,
                          chain: seq<Node>, rejected: bool)
    requires Inv(s)
    ensures forall r :: r in Move(s, client, world).sent ==> MethodName(r).Some?
    ensures forall r :: r in Up(s, root, world, shift, chain, rejected).sent ==> MethodName(r).Some?
  {
  }

  /** A press on an aisle never prepares a drag: aisles have no coordinates method, so the
      first coordinates call fails and the state is reset. */
  lemma AisleNeverArms(s: DragState, w: Point, id: int, rep: PressReplies)
    ensures Arm(s, Aisle, id, w, rep).next == ResetState(s)
    ensures Last(Arm(s, Aisle, id, w, rep).sent) == ResetDrag
  {
  }

  /** A press that hits a known element while shift is held sends exactly one toggle and
      prepares nothing. */
  lemma ShiftClickTogglesOnly(s: DragState, root: nat, e: Press, rep: PressReplies)
    requires e.button == 0 && e.shift && !s.isDragging && e.world.Some?
    requires FindFrom(e.chain, root, 0).Some?
    requires var n := e.chain[FindFrom(e.chain, root, 0).value];
             KindNamed(n.elementType.value).Some?
    ensures var n := e.chain[FindFrom(e.chain, root, 0).value];
            var st := Down(s, root, e, rep);
            st.sent == [Toggle(KindNamed(n.elementType.value).value, n.elementId)] &&
            st.pan == [] && st.next == s.(mouseDownPos := Some(e.client), mouseMoved := false)
  {
  }

  /** A successful arming drags the whole selection when the pressed element is in it, and
      otherwise selects the element alone and drags just it; the coordinates of every
      element are fetched before the press point is recorded. */
  lemma ArmGroupOrSingle(s: DragState, k: Kind, id: int, w: Point, rep: PressReplies)
    requires Draggable(k) && rep.failAt.None?
    ensures var st := Arm(s, k, id, w, rep);
            var included := rep.selected.Some? && id in rep.selected.value;
            var ids := if included then rep.selected.value else [id];
            st.next.dragIds == ids && st.next.kind == Some(k) && st.next.dragStart == Some(w) &&
            st.next.originals == Collect(ids, rep.coords) &&
            st.sent == [GetIds(k)] + (if included then [] else [Select(k, id)]) + CoordCalls(k, ids) &&
            st.pan == [SetPan(false)]
  {
    var included := rep.selected.Some? && id in rep.selected.value;
    var ids := if included then rep.selected.value else [id];
    var base := if included then 1 else 2;
    assert CoordFailure(k, ids, rep.failAt, base) == None;
    var c := Capture(s, k, ids, w, rep, base);
    if !included {
      assert [GetIds(k)] + [Select(k, id)] + c.sent == [GetIds(k), Select(k, id)] + c.sent;
    } else {
      assert [GetIds(k)] + [] + c.sent == [GetIds(k)] + c.sent;
    }
  }

  /** Any failing host call during arming resets the drag state and stops there: the calls
      sent are those up to the failing one, then ResetDragState. */
  lemma ArmFailureResets(s: DragState, k: Kind, id: int, w: Point, rep: PressReplies, f: nat)
    requires rep.failAt == Some(f)
    requires var included := rep.selected.Some? && id in rep.selected.value;
             var n := (if included then 1 else 2) + |if included then rep.selected.value else [id]|;
             f < n
    ensures var st := Arm(s, k, id, w, rep);
            st.next == ResetState(s) && |st.sent| <= f + 2 && Last(st.sent) == ResetDrag &&
            st.pan == [SetPan(true), ResetPan]
  {
    var included := rep.selected.Some? && id in rep.selected.value;
    var pre := [GetIds(k)] + (if included then [] else [Select(k, id)]);
    var ids := if included then rep.selected.value else [id];
    if f >= |pre| {
      assert CoordCallFails(k, rep.failAt, |pre|, f - |pre|);
    }
  }

  /** A drag starts only once the pointer has moved more than five pixels on some axis
      from the press, and then the host hears about it exactly once, for the first element. */
  lemma DragStartsPastThreshold(s: DragState, client: Point, world: Option<Point>)
    requires !s.isDragging
    ensures var st := Move(s, client, world);
            st.next.isDragging ==> (s.mouseMoved || PastThreshold(s.mouseDownPos, client))
    ensures var st := Move(s, client, world);
            st.next.isDragging && s.kind.Some? && |s.dragIds| > 0 ==> st.sent == [DragStart(s.kind.value, s.dragIds[0])]
    ensures var st := Move(s, client, world);
            !st.next.isDragging ==> st.sent == []
  {
  }

  /** A move during a drag never sends anything. */
  lemma MoveWhileDraggingIsSilent(s: DragState, client: Point, world: Option<Point>)
    requires s.isDragging
    ensures Move(s, client, world).sent == [] && Move(s, client, world).pan == []
  {
  }

  /** The preview frame shows the delta of the move that scheduled it: later moves before
      the frame runs leave the pending delta alone. */
  lemma PreviewKeepsFirstDelta(s: DragState, c1: Point, w1: Point, c2: Point, w2: Point)
    requires s.isDragging && s.dragStart.Some? && s.pending.None?
    ensures var s1 := Move(s, c1, Some(w1)).next;
            var s2 := Move(s1, c2, Some(w2)).next;
            s2.pending == Some(Point(w1.x - s.dragStart.value.x, w1.y - s.dragStart.value.y))
  {
  }

  /** Releasing a drag resets the local state before sending the batch; the batch is sent
      only for a non-zero rounded delta, and moves every captured point by that delta. */
  lemma ReleaseCommitsBatch(s: DragState, root: nat, w: Point, shift: bool, chain: seq<Node>, rejected: bool)
    requires s.isDragging && s.dragStart.Some? && s.kind.Some?
    ensures var dx := Round(w.x - s.dragStart.value.x);
            var dy := Round(w.y - s.dragStart.value.y);
            var st := Up(s, root, Some(w), shift, chain, rejected);
            st.sent[0] == ResetDrag &&
            (dx != 0 || dy != 0 ==> st.sent == [ResetDrag, UpdateBatch(s.kind.value, Translate(s.originals, dx, dy))]) &&
            (dx == 0 && dy == 0 ==> st.sent == [ResetDrag]) &&
            st.next.dragStart.None? && !st.next.isDragging && st.next.originals == [] &&
            st.pan == [SetPan(true), ResetPan]
  {
  }

  /** A press on an element followed by a release without leaving the click threshold
      sends no drag call and no update, and gives panning back. */
  lemma ClickWithoutDragSendsNoUpdate(s: DragState, root: nat, e: Press, rep: PressReplies,
                                      w: Option<Point>, shift: bool, chain: seq<Node>, rejected: bool)
    requires !s.isDragging && e.button == 0 && e.world.Some?
    requires var st := Down(s, root, e, rep); st.next.dragStart.Some? && !s.isDragging
    ensures var s1 := Down(s, root, e, rep).next;
            var st := Up(s1, root, w, shift, chain, rejected);
            st.sent == [] && st.pan == [SetPan(true)] && st.next.dragStart.None? && st.next.originals == []
  {
  }

  /** Escape during a drag sends one restore per captured element with its original
      coordinates, then ResetDragState and OnEscapeKeyPressed, and no batch update. */
  lemma EscapeRestoresOriginals(s: DragState)
    requires s.isDragging && s.kind.Some?
    ensures var st := Key(s, "Escape");
            st.sent == Restores(s.kind.value, s.originals) + [ResetDrag, EscapePressed] &&
            (forall r :: r in st.sent ==> !r.UpdateBatch?) &&
            st.next == ResetState(s)
  {
  }

  /** After Escape, releasing the button sends no batch update. */
  lemma EscapeThenReleaseSendsNoBatch(s: DragState, root: nat, w: Option<Point>, shift: bool, chain: seq<Node>, rejected: bool)
    requires s.isDragging
    ensures var s1 := Key(s, "Escape").next;
            forall r :: r in Up(s1, root, w, shift, chain, rejected).sent ==> !r.UpdateBatch?
  {
  }

  /** Escape does nothing outside a drag, and other keys do nothing at all. */
  lemma OtherKeysIgnored(s: DragState, key: string)
    requires key != "Escape" || !s.isDragging
    ensures Key(s, key) == Step(s, [], [])
  {
  }

  /** Releasing a box selection sends the normalised rectangle between its start and the
      release point, with the shift state at release. */
  lemma BoxReleaseSendsNormalisedRect(s: DragState, root: nat, w: Point, shift: bool, chain: seq<Node>, rejected: bool)
    requires !s.isDragging && s.dragStart.None? && s.isBoxSelecting && s.boxStart.Some?
    ensures var b := s.boxStart.value;
            var st := Up(s, root, Some(w), shift, chain, rejected);
            st.sent == [SelectInRect(Min(b.x, w.x), Min(b.y, w.y), Abs(w.x - b.x), Abs(w.y - b.y), shift)] &&
            !st.next.isBoxSelecting && st.next.box.None? && st.pan == [SetPan(true)]
  {
  }

  /** A plain click on the background, where the hit test finds nothing, sends the hit
      test on press and ClearSelection on release. */
  lemma BackgroundClickClears(s: DragState, root: nat, e: Press, rep: PressReplies, w: Option<Point>, rejected: bool)
    requires !s.isDragging && s.dragStart.None? && !s.isBoxSelecting
    requires e.button == 0 && !e.shift && e.world.Some? && !rep.hitFound
    requires FindFrom(e.chain, root, 0).None?
    ensures var d := Down(s, root, e, rep);
            var u := Up(d.next, root, w, false, e.chain, rejected);
            d.sent == [TrySelectAt(e.world.value.x, e.world.value.y, false)] && u.sent == [ClearSelection]
  {
  }

  /** With the grid snap on, every previewed position is within half a grid cell of the
      unsnapped one, and every placement belongs to a captured element. */
  lemma FrameSnapsToGrid(o: Original, d: Point, grid: real)
    requires grid > 0.0 && |o.coords| > 0
    ensures var p := PlaceOne(o, d, true, grid)[0];
            p.id == o.id &&
            Abs(p.at.x - (o.coords[0].x + d.x)) <= grid / 2.0 &&
            Abs(p.at.y - (o.coords[0].y + d.y)) <= grid / 2.0
  {
  }

  // ---------------------------------------------------------------------------
  // The controller
  // ---------------------------------------------------------------------------

  /** The handlers of enableShelfDragging on one SVG element. */
  class DragController {
    var isDragging: bool
    var dragIds: seq<int>
    var kind: Option<Kind>
    var dragStart: Option<Point>
    var originals: seq<Original>
    var isBoxSelecting: bool
    var boxStart: Option<Point>
    var box: Option<Rect>
    var mouseDownPos: Option<Point>
    var mouseMoved: bool
    var pending: Option<Point>
    /** The rectangle positions the last preview frame set. */
    var preview: seq<Placement>
    /** Every host call made so far, in order. */
    var outbox: seq<Request>
    /** The pan controller of the same SVG element, if panning was enabled on it. */
    const pan: PanZoom?
    /** The identity of the SVG element itself, where the ancestor walk stops. */
    const root: nat
    const snapEnabled: bool
    const snapGrid: real

    function State(): DragState
      reads this
    {
      DragState(isDragging, dragIds, kind, dragStart, originals, isBoxSelecting, boxStart, box,
                mouseDownPos, mouseMoved, pending)
    }

    function Gate(): PanGate
      reads this, pan
      requires pan != null
    {
      PanGate(pan.panEnabled, pan.isPanning)
    }

    /** What a step promises about this controller. */
    twostate predicate Did(st: Step)
      reads this
    {
      State() == st.next && outbox == old(outbox) + st.sent && preview == old(preview)
    }

    /** What a step promises about the pan controller: its flags follow the step's pan
      operations and nothing else about it changes. */
    twostate predicate PanDid(ops: seq<PanOp>)
      reads this, pan
    {
      pan != null ==> Gate() == PanAfter(old(Gate()), ops) && pan.Geometry() == old(pan.Geometry())
    }

    constructor (pan: PanZoom?, root: nat, snapEnabled: bool, snapGrid: real)
      ensures State() == Initial && outbox == [] && preview == []
      ensures Inv(State())
      ensures this.pan == pan && this.root == root && this.snapEnabled == snapEnabled && this.snapGrid == snapGrid
    {
      isDragging := false;
      dragIds := [];
      kind := None;
      dragStart := None;
      originals := [];
      isBoxSelecting := false;
      boxStart := None;
      box := None;
      mouseDownPos := None;
      mouseMoved := false;
      pending := None;
      preview := [];
      outbox := [];
      this.pan := pan;
      this.root := root;
      this.snapEnabled := snapEnabled;
      this.snapGrid := snapGrid;
    }

    /** __setPanEnabled on the pan controller, when there is one. */
    method GatePan(enabled: bool)
      modifies pan
      ensures PanDid([SetPan(enabled)])
    {
      if pan != null {
        pan.SetPanEnabled(enabled);
      }
    }

    /** Host calls posted to the page, which change nothing else. */
    method Send(rs: seq<Request>)
      modifies this
      ensures outbox == old(outbox) + rs
      ensures State() == old(State()) && preview == old(preview)
    {
      outbox := outbox + rs;
    }

    /** resetDragState. */
    method ResetDragState()
      modifies this, pan
      ensures Did(ResetStep(old(State()), []))
      ensures PanDid([SetPan(true), ResetPan])
    {
      ClearDrag();
      if pan != null {
        pan.SetPanEnabled(true);
        pan.ResetPanState();
      }
      Send([ResetDrag]);
    }

    /** The handler variables resetDragState clears. */
    method ClearDrag()
      modifies this
      ensures State() == ResetState(old(State()))
      ensures outbox == old(outbox) && preview == old(preview)
    {
      isDragging := false;
      dragIds := [];
      dragStart := None;
      originals := [];
      kind := None;
      pending := None;
    }

    /** The drag arming part of the mouse-down listener. */
    method ArmDrag(k: Kind, id: int, w: Point, rep: PressReplies)
      modifies this, pan
      ensures Did(Arm(old(State()), k, id, w, rep))
      ensures PanDid(Arm(old(State()), k, id, w, rep).pan)
    {
      if rep.failAt == Some(0) {
        SendThenReset([GetIds(k)]);
      } else if rep.selected.Some? && id in rep.selected.value {
        SendThenCapture([GetIds(k)], k, rep.selected.value, w, rep, 1);
      } else if rep.failAt == Some(1) {
        SendThenReset([GetIds(k), Select(k, id)]);
      } else {
        SendThenCapture([GetIds(k), Select(k, id)], k, [id], w, rep, 2);
      }
    }

    /** Host calls, the last of which throws: resetDragState follows. */
    method SendThenReset(calls: seq<Request>)
      modifies this, pan
      ensures Did(ResetStep(old(State()), calls))
      ensures PanDid([SetPan(true), ResetPan])
    {
      Send(calls);
      ResetDragState();
    }

    /** Host calls that answer, then the capture of the elements to drag. */
    method SendThenCapture(calls: seq<Request>, k: Kind, ids: seq<int>, w: Point, rep: PressReplies, base: nat)
      modifies this, pan
      ensures Did(After(calls, Capture(old(State()), k, ids, w, rep, base)))
      ensures PanDid(Capture(old(State()), k, ids, w, rep, base).pan)
    {
      ghost var o0 := outbox;
      ghost var c := Capture(State(), k, ids, w, rep, base);
      Send(calls);
      CaptureDrag(k, ids, w, rep, base);
      assert o0 + calls + c.sent == o0 + (calls + c.sent);
    }

    method CaptureDrag(k: Kind, ids: seq<int>, w: Point, rep: PressReplies, base: nat)
      modifies this, pan
      ensures Did(Capture(old(State()), k, ids, w, rep, base))
      ensures PanDid(Capture(old(State()), k, ids, w, rep, base).pan)
    {
      var os, calls, failed := FetchCoords(k, ids, rep.coords, rep.failAt, base);
      Send(calls);
      if failed.Some? {
        ResetDragState();
        return;
      }
      RecordDrag(ids, k, os, w);
      GatePan(false);
    }

    /** What the drag arming records once every element answered. */
    method RecordDrag(ids: seq<int>, k: Kind, os: seq<Original>, w: Point)
      modifies this
      ensures State() == old(State()).(dragIds := ids, kind := Some(k), originals := os, dragStart := Some(w))
      ensures outbox == old(outbox) && preview == old(preview)
    {
      dragIds := ids;
      kind := Some(k);
      originals := os;
      dragStart := Some(w);
    }

    /** The mouse-down listener. */
    method MouseDown(e: Press, rep: PressReplies)
      modifies this, pan
      ensures Did(Down(old(State()), root, e, rep))
      ensures PanDid(Down(old(State()), root, e, rep).pan)
      ensures Inv(old(State())) ==> Inv(State())
    {
      if e.button != 0 {
        return;
      }
      ghost var s0 := State();
      mouseDownPos := Some(e.client);
      mouseMoved := false;
      Pressed(e, rep);
      if Inv(s0) {
        DownKeepsInv(s0, root, e, rep);
      }
    }

    /** The mouse-down listener after the press is recorded. */
    method Pressed(e: Press, rep: PressReplies)
      modifies this, pan
      ensures Did(PressOn(old(State()), root, e, rep))
      ensures PanDid(PressOn(old(State()), root, e, rep).pan)
    {
      if isDragging {
        return;
      }
      if e.world.None? {
        return;
      }
      var w := e.world.value;
      var found := FindElement(e.chain, root);
      if found.Some? {
        var n := e.chain[found.value];
        var k := KindNamed(n.elementType.value);
        if k.None? {
          return;
        }
        if e.shift {
          Send([Toggle(k.value, n.elementId)]);
          return;
        }
        ArmDrag(k.value, n.elementId, w, rep);
      } else {
        Send([TrySelectAt(w.x, w.y, e.shift)]);
        if rep.hitFound {
          return;
        }
        if e.shift {
          isBoxSelecting := true;
          boxStart := Some(w);
          box := Some(Rect(w.x, w.y, 0.0, 0.0));
          GatePan(false);
        }
      }
    }

    /** The mouse-move listener; it never touches panning. */
    method MouseMove(client: Point, world: Option<Point>)
      modifies this
      ensures Did(Move(old(State()), client, world))
      ensures Inv(old(State())) ==> Inv(State())
    {
      MarkMoved(client);
      if world.None? {
        return;
      }
      BeginDrag();
      FollowPointer(world.value);
    }

    method MarkMoved(client: Point)
      modifies this
      ensures Did(Step(NoteMovement(old(State()), client), [], []))
    {
      if mouseDownPos.Some? {
        if Abs(client.x - mouseDownPos.value.x) > ClickThreshold || Abs(client.y - mouseDownPos.value.y) > ClickThreshold {
          mouseMoved := true;
        }
      }
    }

    method BeginDrag()
      modifies this
      ensures Did(StartDrag(old(State())))
    {
      if !isDragging && dragStart.Some? && |originals| > 0 && mouseMoved {
        isDragging := true;
        if kind.Some? && |dragIds| > 0 {
          outbox := outbox + [DragStart(kind.value, dragIds[0])];
        }
      }
    }

    method FollowPointer(w: Point)
      modifies this
      ensures Did(Step(Track(old(State()), w), [], []))
    {
      if isDragging && dragStart.Some? {
        if pending.None? {
          pending := Some(Point(w.x - dragStart.value.x, w.y - dragStart.value.y));
        }
      } else if isBoxSelecting && boxStart.Some? {
        if box.Some? {
          box := Some(Normalize(boxStart.value, w));
        }
      }
    }

    /** The mouse-up listener. */
    /** The mouse-up listener; `rejected` says whether the host rejects an awaited batch. */
    method MouseUp(world: Option<Point>, shift: bool, chain: seq<Node>, rejected: bool)
      modifies this, pan
      ensures Did(Up(old(State()), root, world, shift, chain, rejected))
      ensures PanDid(Up(old(State()), root, world, shift, chain, rejected).pan)
      ensures Inv(old(State())) ==> Inv(State())
    {
      var awaited := Released(world, shift, chain);
      if rejected && awaited {
        return;
      }
      mouseDownPos := None;
      mouseMoved := false;
    }

    /** The branches of the mouse-up listener. */
    method Released(world: Option<Point>, shift: bool, chain: seq<Node>) returns (awaited: bool)
      modifies this, pan
      ensures Did(Release(old(State()), root, world, shift, chain))
      ensures PanDid(Release(old(State()), root, world, shift, chain).pan)
      ensures awaited <==> AwaitsBatch(old(State()), world)
    {
      awaited := false;
      if isDragging && world.Some? && dragStart.Some? {
        awaited := EndDrag(world.value);
      } else if dragStart.Some? && !mouseMoved {
        CancelArm();
      } else if isBoxSelecting && boxStart.Some? && world.Some? {
        EndBox(world.value, shift);
      } else if mouseDownPos.Some? && !mouseMoved && !shift {
        var hit := FindElement(chain, root);
        if hit.None? {
          Send([ClearSelection]);
        }
      }
    }

    method EndDrag(w: Point) returns (awaited: bool)
      requires dragStart.Some?
      modifies this, pan
      ensures Did(FinishDrag(old(State()), w))
      ensures PanDid(FinishDrag(old(State()), w).pan)
      ensures awaited <==> old(kind).Some? && (Round(w.x - old(dragStart).value.x) != 0 || Round(w.y - old(dragStart).value.y) != 0)
    {
      var dx := Round(w.x - dragStart.value.x);
      var dy := Round(w.y - dragStart.value.y);
      var k := kind;
      var batch: seq<Request> := [];
      if (dx != 0 || dy != 0) && k.Some? {
        var b := BuildBatch(originals, dx, dy);
        batch := [UpdateBatch(k.value, b)];
      }
      ResetDragState();
      Send(batch);
      awaited := batch != [];
    }

    method CancelArm()
      modifies this, pan
      ensures Did(Disarm(old(State())))
      ensures PanDid(Disarm(old(State())).pan)
    {
      dragStart := None;
      originals := [];
      dragIds := [];
      kind := None;
      GatePan(true);
    }

    method EndBox(w: Point, shift: bool)
      requires boxStart.Some?
      modifies this, pan
      ensures Did(FinishBox(old(State()), w, shift))
      ensures PanDid(FinishBox(old(State()), w, shift).pan)
    {
      var b := Normalize(boxStart.value, w);
      Send([SelectInRect(b.x, b.y, b.w, b.h, shift)]);
      box := None;
      isBoxSelecting := false;
      GatePan(true);
    }

    /** The key-down listener. */
    method KeyDown(key: string)
      modifies this, pan
      ensures Did(Key(old(State()), key))
      ensures PanDid(Key(old(State()), key).pan)
      ensures Inv(old(State())) ==> Inv(State())
    {
      if key == "Escape" && isDragging {
        if kind.Some? {
          var restore := RestoreCalls(kind.value, originals);
          Send(restore);
        }
        ResetDragState();
        Send([EscapePressed]);
      }
    }

    /** The scheduled preview frame, when one is pending: moves each element's rectangle. */
    method AnimationFrame()
      modifies this
      ensures old(pending).Some? ==> (State(), preview) == Frame(old(State()), snapEnabled, snapGrid)
      ensures old(pending).None? ==> State() == old(State()) && preview == old(preview)
      ensures outbox == old(outbox)
    {
      if pending.None? {
        return;
      }
      preview := PreviewPlacements(originals, pending.value, snapEnabled, snapGrid);
      pending := None;
    }
  }
}
