# Layout editor core, modelled in Dafny

This project models the browser-side core of a warehouse layout editor. The core has four parts:

- **The SVG editor** (`js/LayoutEditor.js`). It handles pan and zoom, drawing a new object's rectangle, selecting and dragging elements, keyboard shortcuts, and the wall tracer on a canvas.
- **The canvas renderer of the layout** (`js/LayoutRenderer.js`). It keeps hidden-id and invalid-id tables, fits the view box to the canvas, and draws the grid, the scene and the flow path. It also draws a minimap.
- **The drawing extractor's canvas tools** (`js/LayoutExtractor.js`). These are the wall tracer, the real-size calibration lines, the RGBA payload size check, and the shelf pointer.
- **The navigation overlay** (`js/NavigationRenderer.js`). It draws wall cells, arrow cells and free cells under the same view transform.

Drawing is modelled as lists of drawing commands (fill this box, stroke that line, put this label there), not as pixels. Calls to the host application are modelled as typed requests appended to an outbox, and its replies are inputs. Objects whose fields the handlers update are Dafny classes. Their methods are proved against pure specification functions, and the properties of those functions are proved as lemmas.

Modules:

| file | module | what it models |
|---|---|---|
| `common.dfy` | `Common` | points and rectangles, `Math.round`, rounded square roots, decimal strings, `forEach` as a concatenation |
| `snapping.dfy` | `Snapping` | the wall tracers' snap to existing points, the 15-unit closing distance, the 5-degree angle snap |
| `wall_picker.dfy` | `WallPicker` | the editor's and the extractor's wall tracers, their redraw and preview, get and clear |
| `viewport.dfy` | `Viewport` | `enablePan`: zoom clamping, wheel zoom, panning, bounds reports, `panToPosition`, `setZoom` |
| `elements.dfy` | `Elements` | `typeConfig`, the host requests, `findElement` |
| `object_drawing.dfy` | `ObjectDrawing` | `enableObjectDrawing` |
| `selection_drag.dfy` | `SelectionDrag` | `enableShelfDragging`: arming, dragging, preview frame, release, box selection, Escape |
| `shortcuts.dfy` | `Shortcuts` | `enableKeyboardShortcuts` and `disableKeyboardShortcuts` |
| `real_size.dfy` | `RealSize` | `enableRealSizePicker`, `setRealSizeScale`, `getRealSizePoints`, `clearRealSizePoints` |
| `canvas_utils.dfy` | `CanvasUtils` | `drawRgbaOnCanvas`'s size check, `getShelfPointer` |
| `layout_scene.dfy` | `LayoutScene` | `_drawScene` as draw commands: walls, items, hatching, passages, aisles, zones |
| `layout_renderer.dfy` | `LayoutRendering` | the `layoutRenderer` object: tables, fit, grid, flow path, main frame, minimap |
| `navigation.dfy` | `Navigation` | the `navigationRenderer` object: fit, wall boxes, arrow bitmask, detail gate |

## Model

| member | source | states |
|---|---|---|
| Common.Round | js/LayoutEditor.js:343-344 | `Math.round`: the result is the integer nearest to x, with a half rounded up (r − 1/2 ≤ x < r + 1/2) |
| Common.Normalize | js/LayoutEditor.js:320-323 | the min/abs rectangle between two corners has a non-negative size, and its edges are exactly the corners' coordinates |
| Common.NormalizeSymmetric | js/LayoutEditor.js:337-340 | swapping the press and release corners gives the same rectangle |
| Common.NormalizeOtherDiagonal | js/LayoutEditor.js:686-691 | the two corners of the other diagonal give the same rectangle |
| Common.RoundSqrt | js/LayoutExtractor.js:338-344 | `Math.round(Math.sqrt(d))`: the square root of d lies within 1/2 of the result |
| Common.RoundsToRootUnique | js/LayoutExtractor.js:338-344 | only one natural number is the rounded square root of d |
| Common.NatToString | js/LayoutRenderer.js:251 | `toString` of a natural number: digits only, and two or more digits exactly when n ≥ 10 |
| Common.ParseNatToString | js/LayoutRenderer.js:251 | the decimal string of n reads back as n |
| Common.NatToStringInjective | js/LayoutRenderer.js:251 | different numbers print differently |
| Common.IntToString | js/LayoutRenderer.js:835 | `String(i)` starts with a minus sign exactly when i is negative |
| Common.IntToStringInjective | js/LayoutRenderer.js:835 | different integers print differently |
| Common.FlatMapMember | js/LayoutRenderer.js:387-525 | a command drawn by a `forEach` comes from one of the elements, and every element's commands are drawn |
| Common.FlatMapAppend | js/LayoutRenderer.js:387-525 | a `forEach` over two lists in turn draws the first list's commands, then the second's |
| Common.ForEachAppend | js/LayoutRenderer.js:387-525 | the loop that appends each element's commands in order yields the `forEach` concatenation |
| Snapping.SnapAxis | js/LayoutEditor.js:865-885 | one axis of `snapToExistingPoints`: the coordinate is unchanged, or it is some point's coordinate within 20 of it |
| Snapping.SnapAxisNoMatch | js/LayoutEditor.js:870-882 | with no point within 20 on that axis, the coordinate is unchanged |
| Snapping.SnapAxisLastMatch | js/LayoutEditor.js:870-882 | the last point within 20 wins over earlier ones |
| Snapping.SnapPoint | js/LayoutEditor.js:865-885 | each axis is snapped independently |
| Snapping.SnapPointEmpty | js/LayoutEditor.js:865-885 | before any point is placed, snapping changes nothing |
| Snapping.SnapPointNotIdempotent | js/LayoutEditor.js:865-885 | snapping an already snapped position can move it again, shown on two concrete points |
| Snapping.SnapToExistingPoints | js/LayoutExtractor.js:166-174 | the loop over the placed points computes `SnapPoint` |
| Snapping.SnapDegrees | js/LayoutEditor.js:904 | the snapped angle is a multiple of 5 degrees, within 2.5 degrees of the raw angle |
| Snapping.SnapAngle | js/LayoutEditor.js:888-916 | a candidate closer than 1 to the anchor is kept; otherwise the point is re-projected at the same distance along a 5-degree-multiple direction within 2.5 degrees of the raw one |
| Snapping.Place | js/LayoutEditor.js:1021-1028 | where a click puts the next point: snapped to the existing points, then angle-snapped against the last point when there is one; `ClickShape` and `SnapAngle` state its properties |
| WallPicker.ClickShape | js/LayoutEditor.js:994-1033 | a left click either closes the trace or appends exactly one point; placed points never change |
| WallPicker.Click | js/LayoutEditor.js:994-1033 | the trace after a left click: frozen for a closed extractor trace, closed near the first point of a trace of three or more, otherwise extended by `Place`; `ClickShape`, `ClickNearFirstCloses` and `ExtractorClosedIsFrozen` state what it guarantees |
| WallPicker.Redraw | js/LayoutEditor.js:918-951 | redrawAll: a clear, then `Dots`, `Segments` and `ClosingSegment`, whose contracts give one dot per point and one segment per consecutive pair |
| WallPicker.ClickNearFirstCloses | js/LayoutEditor.js:1001-1003 | with three or more points, a click within 15 of the first point closes the trace without adding a point |
| WallPicker.ShortTraceNeverCloses | js/LayoutEditor.js:1001 | a trace of fewer than three points never closes |
| WallPicker.EditorAppendsAfterClose | js/LayoutEditor.js:994-1033 | the editor's tracer still appends points after it has closed |
| WallPicker.ExtractorClosedIsFrozen | js/LayoutExtractor.js:248-250 | once the extractor's trace is closed, no sequence of clicks changes it |
| WallPicker.ClicksGrowAtMostOnePerClick | js/LayoutExtractor.js:248-268 | n clicks add at most n points and keep the earlier ones as a prefix |
| WallPicker.Dots | js/LayoutEditor.js:925-929 | one dot per point, at that point |
| WallPicker.Segments | js/LayoutEditor.js:934-940 | one segment between each pair of consecutive points |
| WallPicker.ClosingSegment | js/LayoutExtractor.js:213-220 | the last-to-first segment: the editor draws it for any trace of more than two points, the extractor only once the trace is closed |
| WallPicker.ClosingSegmentDiffers | js/LayoutEditor.js:942-950 | the two tracers differ exactly on open traces of three or more points |
| WallPicker.ClickDrawing | js/LayoutEditor.js:1001-1032 | after a click the canvas shows the redraw of the new trace; when the editor closes, an extra closing segment follows it |
| WallPicker.Preview | js/LayoutEditor.js:961-992 | the move preview is empty once the trace is closed or before the first point; otherwise it ends with the marker (editor) or guide line (extractor) at the snapped target |
| WallPicker.WallCanvas.constructor | js/LayoutEditor.js:820-823 | a canvas starts with no points, open, and no tracer attached |
| WallPicker.WallCanvas.Enable | js/LayoutEditor.js:813-823 | enabling twice is a no-op; the first enable reopens the trace and keeps its points |
| WallPicker.WallCanvas.MouseDown | js/LayoutEditor.js:994-1033 | a left click updates the trace by `Click` and leaves `ClickDrawing` on the canvas; other buttons change nothing |
| WallPicker.WallCanvas.MouseMove | js/LayoutExtractor.js:229-246 | a move leaves the trace unchanged and shows the preview |
| WallPicker.WallCanvas.GetPoints | js/LayoutExtractor.js:274-277 | the traced points, or none before any tracer |
| WallPicker.WallCanvas.Clear | js/LayoutEditor.js:1052-1071 | the points are emptied, the trace reopened and the canvas cleared |
| WallPicker.RedrawAll | js/LayoutExtractor.js:191-221 | the redraw loops issue exactly `Redraw`: clear, dots, segments, then the closing segment |
| Viewport.ClampZoom | js/LayoutEditor.js:134 | the zoom is clamped into [0.2, 5.0], and unchanged inside it |
| Viewport.ZoomTo | js/LayoutEditor.js:133-149 | the new view box is the base size divided by the clamped zoom, around the same centre |
| Viewport.ZoomToIdempotent | js/LayoutEditor.js:133-149 | zooming twice to the same level is zooming once |
| Viewport.WheelInOutRestores | js/LayoutEditor.js:191-196 | away from the clamp bounds, one notch in and one notch out returns to the same zoom |
| Viewport.BoundsMsgs | js/LayoutEditor.js:151-159 | with a host, the bounds and the view offset are reported; without one, nothing |
| Viewport.PanKeepsGrabbedPoint | js/LayoutEditor.js:171-183 | while panning, the layout point under the pointer at the press stays under the pointer |
| Viewport.PanBackRestores | js/LayoutEditor.js:171-183 | moving the pointer back to the press position restores the original origin |
| Viewport.PanOrigin | js/LayoutEditor.js:171-183 | the pan origin: the press-time origin moved against the pointer's travel in layout units; `PanKeepsGrabbedPoint` and `PanBackRestores` state its properties |
| Viewport.PanZoom.constructor | js/LayoutEditor.js:120-131 | the view box at attach time is the zoom-1 size, panning is enabled, and the bounds are reported once |
| Viewport.PanZoom.ApplyZoom | js/LayoutEditor.js:133-149 | the zoom becomes the clamped value and the view box is rescaled about its centre; the host hears of it only when notified |
| Viewport.PanZoom.SetZoom | js/LayoutEditor.js:230 | `setZoom` zooms without the zoom-changed notice |
| Viewport.PanZoom.Wheel | js/LayoutEditor.js:191-196 | a notch multiplies the zoom by 1.1 or 1/1.1, then clamps it |
| Viewport.PanZoom.MouseDown | js/LayoutEditor.js:161-169 | a pan starts only for the left button, with panning enabled and shift up; it records the press and the origin |
| Viewport.PanZoom.MouseMove | js/LayoutEditor.js:171-183 | while panning, the origin follows `PanOrigin`, the size and zoom stay, and the renderer and host are told |
| Viewport.PanZoom.MouseUp | js/LayoutEditor.js:185-189 | ends the pan, and reports the bounds if a pan was in progress |
| Viewport.PanZoom.SetPanEnabled | js/LayoutEditor.js:207-211 | sets the flag; disabling ends a pan; nothing else changes |
| Viewport.PanZoom.ResetPanState | js/LayoutEditor.js:212-215 | ends a pan; nothing else changes |
| Viewport.PanZoom.PanToPosition | js/LayoutEditor.js:221-227 | the view box is centred on the given layout point, with the same size |
| Elements.KindNamed | js/LayoutEditor.js:474 | an element type name maps to the kind of that name, and every kind's name is recognised |
| Elements.TypeConfig | js/LayoutEditor.js:44-102 | a kind has the four drag methods exactly when it is draggable (not an aisle); the multi-select methods exactly for shelf, obstacle and column; the others toggle by selecting |
| Elements.SelectNamesDistinct | js/LayoutEditor.js:44-102 | no two kinds share a select method |
| Elements.MethodName | js/LayoutEditor.js:44-102 | a request has no host method exactly when it is a drag call for a kind without drag methods |
| Elements.FindFrom | js/LayoutEditor.js:31-42 | a found position is in the chain and holds a data group |
| Elements.FindFromFirst | js/LayoutEditor.js:31-42 | the answer is the nearest data group the walk reaches, and none when the walk reaches none |
| Elements.FindElement | js/LayoutEditor.js:31-42 | the walk up the parents returns the nearest data group within ten steps before the root, or none |
| ObjectDrawing.MinSide | js/LayoutEditor.js:258-268 | the threshold is twice the stroke width, 4 screen pixels in layout units, and 4 without a screen transform |
| ObjectDrawing.Drawn | js/LayoutEditor.js:336-345 | a release reports the rounded normalised rectangle exactly when one side exceeds the threshold |
| ObjectDrawing.DrawnSymmetric | js/LayoutEditor.js:336-345 | dragging from either corner reports the same rectangle |
| ObjectDrawing.SmallDragsIgnored | js/LayoutEditor.js:342 | at a positive scale, a drag of at most 4/scale on both axes reports nothing |
| ObjectDrawing.FiveUnitsWithoutTransform | js/LayoutEditor.js:259-264 | without a screen transform, a 5-unit drag on one axis is reported |
| ObjectDrawing.Press | js/LayoutEditor.js:270-313 | exactly a left press with layout coordinates starts a drawing at the press, with a ghost rectangle of size zero there, and disables panning; a ghost still shown is left orphaned and counted; anything else changes nothing |
| ObjectDrawing.Stretch | js/LayoutEditor.js:316-328 | while drawing, the ghost rectangle is the normalised rectangle from the start to the pointer |
| ObjectDrawing.ReleaseEnds | js/LayoutEditor.js:330-352 | a release ends the drawing, removes the rectangle and reports at most `Drawn`; the start is forgotten and panning re-enabled exactly when no report was rejected, since the awaited `OnObjectDrawn` has no catch |
| ObjectDrawing.Release | js/LayoutEditor.js:330-352 | the mouse-up transition: outside a drawing nothing happens; otherwise the drawing ends and `Drawn` is reported when the outline, the start and the release point exist, and a rejected report leaves the start set and panning off; `ReleaseEnds`, `RejectionKeepsReport` and `MovesDoNotMatter` state its properties |
| ObjectDrawing.RejectionKeepsReport | js/LayoutEditor.js:343-351 | the host's rejection does not change the report; with no report, rejection changes nothing at all |
| ObjectDrawing.StretchAll | js/LayoutEditor.js:316-328 | a sequence of moves, each applied by `Stretch`; `StretchAllKeeps` shows moves keep the start and the flag |
| ObjectDrawing.MovesDoNotMatter | js/LayoutEditor.js:316-345 | what is reported depends only on the press and release points, not on the moves between or on the host's answer |
| ObjectDrawing.StretchAllKeeps | js/LayoutEditor.js:316-328 | moves never change the start or the drawing flag |
| ObjectDrawing.RectDrawer.constructor | js/LayoutEditor.js:254-256 | no drawing, no start, no ghost rectangle |
| ObjectDrawing.RectDrawer.MouseDown | js/LayoutEditor.js:270-313 | the handler state follows `Press`, and a second press leaves the previous ghost rectangle orphaned in the SVG |
| ObjectDrawing.RectDrawer.MouseMove | js/LayoutEditor.js:316-328 | the ghost rectangle follows `Stretch` |
| ObjectDrawing.RectDrawer.Report | js/LayoutEditor.js:336-345 | the rectangle the release reports: `Drawn` from the start to the release point, when the ghost, the start and the coordinates exist |
| ObjectDrawing.RectDrawer.MouseUp | js/LayoutEditor.js:330-352 | the state and the report follow `Release`, the ghost rectangle is removed, and panning is re-enabled unless the host rejected the report |
| SelectionDrag.IndexOf | js/LayoutEditor.js:506 | the position of an id in the captured-coordinates map, if any |
| SelectionDrag.MapSet | js/LayoutEditor.js:506 | `Map.set` replaces an existing entry in place or appends a new one, and ids stay distinct |
| SelectionDrag.Collect | js/LayoutEditor.js:501-507 | the captured map has one entry per dragged id that got coordinates, holding those coordinates, with distinct ids |
| SelectionDrag.FetchCoords | js/LayoutEditor.js:504-507 | the coordinate loop stops at the first failing call, and otherwise captures `Collect` |
| SelectionDrag.Shifted | js/LayoutEditor.js:658 | every point moved by the same delta |
| SelectionDrag.Translate | js/LayoutEditor.js:655-660 | the batch holds every captured element, in order, with every point translated |
| SelectionDrag.TranslateBack | js/LayoutEditor.js:655-660 | translating by the opposite delta restores the captured coordinates |
| SelectionDrag.BuildBatch | js/LayoutEditor.js:656-660 | the release loop builds exactly `Translate` |
| SelectionDrag.Restores | js/LayoutEditor.js:719-724 | Escape sends one single-element update per captured element, with its original coordinates |
| SelectionDrag.RestoreCalls | js/LayoutEditor.js:721-723 | the Escape loop sends exactly `Restores` |
| SelectionDrag.CoordCalls | js/LayoutEditor.js:504-505 | one getCoords call per dragged id, in order |
| SelectionDrag.CoordFailure | js/LayoutEditor.js:504-518 | the first failing getCoords call, if any |
| SelectionDrag.ResetStep | js/LayoutEditor.js:407-436 | resetDragState as a step: the drag fields and the pending frame cleared, the box and press kept, panning re-enabled then reset, and ResetDrag sent after the given calls |
| SelectionDrag.Capture | js/LayoutEditor.js:500-518 | the coordinate capture: the first failing getCoords call leads to `ResetStep` after the calls up to it; otherwise the ids, kind, captured map and press point are recorded and panning disabled; `ArmGroupOrSingle` and `ArmFailureResets` state its properties |
| SelectionDrag.Arm | js/LayoutEditor.js:489-518 | the arming: read the selection, select the element alone unless it is in the selection, then `Capture`; a throwing call resets; properties in `ArmGroupOrSingle`, `ArmFailureResets` and `AisleNeverArms` |
| SelectionDrag.Down | js/LayoutEditor.js:457-573 | the mouse-down transition: other buttons do nothing; a left press records the press point and continues with `PressOn` |
| SelectionDrag.PressOn | js/LayoutEditor.js:463-572 | nothing while dragging or without layout coordinates; shift on an element toggles it; a plain press on an element arms; on the background the hit test is asked, and shift with no hit starts a box; properties in `ShiftClickTogglesOnly` and `BackgroundClickClears` |
| SelectionDrag.NoteMovement | js/LayoutEditor.js:576-581 | a pointer more than 5 pixels from the press on either axis marks the press as moved |
| SelectionDrag.StartDrag | js/LayoutEditor.js:587-601 | an armed, moved press with captured elements becomes a drag, and the host hears of the first element; `DragStartsPastThreshold` states its property |
| SelectionDrag.Track | js/LayoutEditor.js:603-636 | a drag keeps the delta of the move that scheduled the frame; a box selection stretches its normalised rectangle; `PreviewKeepsFirstDelta` states its property |
| SelectionDrag.Move | js/LayoutEditor.js:575-642 | the mouse-move transition: `NoteMovement`, then with layout coordinates `StartDrag` and `Track`; `MoveWhileDraggingIsSilent` states its property |
| SelectionDrag.FinishDrag | js/LayoutEditor.js:648-673 | a drag's release: resetDragState, then the translated batch when the rounded delta is not zero; `ReleaseCommitsBatch` states its property |
| SelectionDrag.Disarm | js/LayoutEditor.js:675-682 | an armed press released without moving forgets the drag and re-enables panning; `ClickWithoutDragSendsNoUpdate` states its property |
| SelectionDrag.FinishBox | js/LayoutEditor.js:684-704 | a box release selects inside the normalised rectangle and ends the box; `BoxReleaseSendsNormalisedRect` states its property |
| SelectionDrag.Release | js/LayoutEditor.js:646-712 | the mouse-up branches in the source's order: drag, armed click, box, background click |
| SelectionDrag.Up | js/LayoutEditor.js:644-714 | the mouse-up transition: `Release`, then the press is forgotten unless the host rejects the awaited batch; `EscapeThenReleaseSendsNoBatch`, `RejectedBatchKeepsPress` and `UpKeepsInv` state its properties |
| SelectionDrag.RejectedBatchKeepsPress | js/LayoutEditor.js:667-713 | the uncaught `updateFinal` await: a rejected batch sends the same calls and leaves the same drag state, but the press and its movement flag stay set; every other release ignores the rejection |
| SelectionDrag.Key | js/LayoutEditor.js:716-729 | Escape during a drag restores every element, resets and reports Escape; `EscapeRestoresOriginals` and `OtherKeysIgnored` state its properties |
| SelectionDrag.Frame | js/LayoutEditor.js:609-633 | the preview frame: every captured element placed at its first point moved by the pending delta, then the pending flag cleared; `FrameSnapsToGrid` states its property |
| SelectionDrag.GridSnap | js/LayoutEditor.js:623-626 | with snapping on, the nearest multiple of the grid size, within half a cell |
| SelectionDrag.Placements | js/LayoutEditor.js:610-631 | one placement per captured element with points |
| SelectionDrag.PreviewPlacements | js/LayoutEditor.js:610-631 | the frame loop places exactly `Placements` |
| SelectionDrag.InitialInv | js/LayoutEditor.js:381-400 | the initial state holds the invariant that a drag start implies a draggable kind |
| SelectionDrag.DownKeepsInv | js/LayoutEditor.js:457-573 | the mouse-down handler keeps the invariant |
| SelectionDrag.MoveKeepsInv | js/LayoutEditor.js:575-642 | the mouse-move handler keeps the invariant |
| SelectionDrag.UpKeepsInv | js/LayoutEditor.js:644-714 | the mouse-up handler keeps the invariant |
| SelectionDrag.KeyKeepsInv | js/LayoutEditor.js:716-729 | the key handler keeps the invariant |
| SelectionDrag.InvNamesDragCalls | js/LayoutEditor.js:587-669 | in a state that keeps `Inv`, every call a move or a release sends names a host method: the drag start and the batch go only to a kind whose Config row has them |
| SelectionDrag.AisleNeverArms | js/LayoutEditor.js:504-518 | a press on an aisle never prepares a drag, because the aisle row has no getCoords method |
| SelectionDrag.ShiftClickTogglesOnly | js/LayoutEditor.js:479-486 | a shift press on a known element sends exactly one toggle and changes nothing else |
| SelectionDrag.ArmGroupOrSingle | js/LayoutEditor.js:491-509 | a successful arming drags the whole selection when the element is in it, and otherwise selects the element alone and drags it |
| SelectionDrag.ArmFailureResets | js/LayoutEditor.js:515-518 | any failing call during arming resets the drag state and stops there |
| SelectionDrag.DragStartsPastThreshold | js/LayoutEditor.js:576-592 | a drag starts only after the pointer has moved more than 5 pixels on some axis |
| SelectionDrag.MoveWhileDraggingIsSilent | js/LayoutEditor.js:603-636 | a move during a drag sends nothing to the host |
| SelectionDrag.PreviewKeepsFirstDelta | js/LayoutEditor.js:607-634 | the preview frame uses the delta of the move that scheduled it, not of later moves |
| SelectionDrag.ReleaseCommitsBatch | js/LayoutEditor.js:648-673 | a release resets the state, then sends the translated batch exactly when the rounded delta is non-zero |
| SelectionDrag.ClickWithoutDragSendsNoUpdate | js/LayoutEditor.js:675-682 | a press and a release within the click threshold send no coordinate update |
| SelectionDrag.EscapeRestoresOriginals | js/LayoutEditor.js:716-729 | Escape during a drag sends the restores, resets, and reports the Escape key |
| SelectionDrag.EscapeThenReleaseSendsNoBatch | js/LayoutEditor.js:644-673 | after Escape, a release sends no batch |
| SelectionDrag.OtherKeysIgnored | js/LayoutEditor.js:717 | Escape outside a drag, and every other key, does nothing |
| SelectionDrag.BoxReleaseSendsNormalisedRect | js/LayoutEditor.js:684-704 | releasing a box selection sends the normalised rectangle with the shift flag, then ends the box |
| SelectionDrag.BackgroundClickClears | js/LayoutEditor.js:706-710 | a plain click on empty background, with no hit, clears the selection |
| SelectionDrag.FrameSnapsToGrid | js/LayoutEditor.js:618-626 | with the grid snap on, each previewed position is within half a cell of the unsnapped target |
| SelectionDrag.DragController.constructor | js/LayoutEditor.js:381-400 | the handler state starts as `Initial`, which holds `Inv` |
| SelectionDrag.DragController.GatePan | js/LayoutEditor.js:510 | `__setPanEnabled` on the pan controller, when there is one |
| SelectionDrag.DragController.ResetDragState | js/LayoutEditor.js:407-436 | the state follows `ResetStep`: the drag is cleared, panning re-enabled and reset, and the host told |
| SelectionDrag.DragController.ArmDrag | js/LayoutEditor.js:489-518 | the state and the calls follow `Arm` |
| SelectionDrag.DragController.SendThenCapture | js/LayoutEditor.js:493-509 | the host calls before the capture are sent, then the state, the calls and the pan operations follow `Capture` |
| SelectionDrag.DragController.SendThenReset | js/LayoutEditor.js:515-518 | the calls up to the one that throws are sent, then resetDragState's state and pan operations follow |
| SelectionDrag.DragController.CaptureDrag | js/LayoutEditor.js:500-512 | the state and the calls follow `Capture` |
| SelectionDrag.DragController.MouseDown | js/LayoutEditor.js:457-573 | the state and the calls follow `Down`, and `Inv` is kept |
| SelectionDrag.DragController.MouseMove | js/LayoutEditor.js:575-642 | the state and the calls follow `Move`, and `Inv` is kept |
| SelectionDrag.DragController.MarkMoved | js/LayoutEditor.js:576-581 | the state follows `NoteMovement` |
| SelectionDrag.DragController.BeginDrag | js/LayoutEditor.js:587-601 | the state and the calls follow `StartDrag` |
| SelectionDrag.DragController.FollowPointer | js/LayoutEditor.js:603-636 | the state follows `Track` |
| SelectionDrag.DragController.MouseUp | js/LayoutEditor.js:644-714 | the state and the calls follow `Up`, including a rejected batch, and `Inv` is kept |
| SelectionDrag.DragController.EndDrag | js/LayoutEditor.js:648-673 | the state and the calls follow `FinishDrag`, and the result says whether a batch is awaited |
| SelectionDrag.DragController.CancelArm | js/LayoutEditor.js:675-682 | the state follows `Disarm` |
| SelectionDrag.DragController.EndBox | js/LayoutEditor.js:684-704 | the state and the calls follow `FinishBox` |
| SelectionDrag.DragController.KeyDown | js/LayoutEditor.js:716-729 | the state and the calls follow `Key`, and `Inv` is kept |
| SelectionDrag.DragController.AnimationFrame | js/LayoutEditor.js:609-633 | a pending frame moves the previewed rectangles to `Placements` and clears the pending flag |
| Shortcuts.LowerChar | js/LayoutEditor.js:757 | `toLowerCase` on one character, for the letters A-Z: they map to a-z; every other character is kept |
| Shortcuts.Lower | js/LayoutEditor.js:757 | same length, with each character lower-cased |
| Shortcuts.LowerIdempotent | js/LayoutEditor.js:757 | lower-casing twice is lower-casing once |
| Shortcuts.Normalized | js/LayoutEditor.js:757-758 | the key is lower-cased, and "esc" becomes "escape" |
| Shortcuts.KeyIntent | js/LayoutEditor.js:756-784 | arrow keys report their direction and shift; Escape and Delete always act; the letter shortcuts need Ctrl; any other key does nothing |
| Shortcuts.KeyIntentIgnoresCase | js/LayoutEditor.js:757 | the shortcut does not depend on the case of the key name |
| Shortcuts.EscSpellings | js/LayoutEditor.js:757-762 | every key whose lower-cased name is "esc" or "escape" cancels, whatever the modifiers |
| Shortcuts.DeleteSpellings | js/LayoutEditor.js:757-763 | every key whose lower-cased name is "delete" deletes, whatever the modifiers |
| Shortcuts.ArrowDirections | js/LayoutEditor.js:772-777 | every key named "arrow" in any case followed by any rest reports the lower-cased rest as its direction, with shift, whatever Ctrl says; ArrowUp, ArrowDown, ArrowLeft and ArrowRight give up, down, left and right |
| Shortcuts.LettersNeedCtrl | js/LayoutEditor.js:762-768 | a one-character key acts only with Ctrl, and then exactly for c, v, a, z and y in either case: C copies, V pastes, A selects all, Z undoes and Y redoes |
| Shortcuts.ShortcutHost.constructor | js/LayoutEditor.js:753 | a window with other listeners and no shortcut handler |
| Shortcuts.ShortcutHost.Enable | js/LayoutEditor.js:753-788 | the previous shortcut listener is removed and the new one is registered, once, as addEventListener skips a listener already present |
| Shortcuts.ShortcutHost.Disable | js/LayoutEditor.js:790-795 | the shortcut listener is removed and forgotten |
| Shortcuts.Without | js/LayoutEditor.js:792 | `removeEventListener` drops every registration of the listener and keeps the others in order |
| Shortcuts.RemoveListener | js/LayoutEditor.js:792 | the removal loop computes `Without` |
| Shortcuts.EnableTwiceKeepsOne | js/LayoutEditor.js:753-788 | enabling twice leaves one registration of the new listener and none of the old |
| RealSize.Project | js/LayoutExtractor.js:446-456 | the end point is projected onto the dominant axis from the start: horizontal when the x move is at least the y move |
| RealSize.ProjectIdempotent | js/LayoutExtractor.js:446-456 | projecting a projected end again changes nothing |
| RealSize.MeasureSq | js/LayoutExtractor.js:329-346 | the squared length is in millimetres when both scales are positive, and in pixels otherwise |
| RealSize.DistText | js/LayoutExtractor.js:329-346 | the label is the rounded length followed by " mm" or " px" |
| RealSize.DistTextReadsBack | js/LayoutExtractor.js:329-346 | the label's number reads back as the rounded square root of the measured squared length |
| RealSize.HorizontalLabelIsScaledLength | js/LayoutExtractor.js:334-339 | a horizontal line on a calibrated drawing reads as its pixel length times the x scale, rounded |
| RealSize.VerticalLabelIsScaledLength | js/LayoutExtractor.js:334-339 | a vertical line on a calibrated drawing reads as its pixel length times the y scale, rounded |
| RealSize.RootOfSquare | js/LayoutExtractor.js:338-339 | the rounded square root of a² is the rounding of a, for a ≥ 0 |
| RealSize.LabelCenter | js/LayoutExtractor.js:383-404 | the label box is pulled inside the canvas when it would cross an edge |
| RealSize.DimensionPaint | js/LayoutExtractor.js:348-418 | the line, end bars across the line's axis, the label box and the text |
| RealSize.Overlay | js/LayoutExtractor.js:421-441 | the horizontal slot, the vertical slot, then the line in progress once it has two points |
| RealSize.PaintOverlay | js/LayoutExtractor.js:421-441 | the drawDimensionLine calls of redrawAll equal `Overlay` |
| RealSize.RealSizeCanvas.constructor | js/LayoutExtractor.js:292-316 | a canvas without lines, points or scales |
| RealSize.RealSizeCanvas.Enable | js/LayoutExtractor.js:292-316 | on a canvas with a zero side getImageData throws and nothing the model holds changes; otherwise the current content becomes the background snapshot, the slots and scales are kept and the points emptied |
| RealSize.RealSizeCanvas.Redraw | js/LayoutExtractor.js:421-441 | the canvas shows the snapshot and then `Overlay` |
| RealSize.RealSizeCanvas.MouseMove | js/LayoutExtractor.js:443-458 | with a start point, the current points become the start and the projected pointer, and the canvas is redrawn |
| RealSize.RealSizeCanvas.MouseDown | js/LayoutExtractor.js:460-494 | the first left click records the start; the second confirms the line |
| RealSize.RealSizeCanvas.Confirm | js/LayoutExtractor.js:469-493 | the projected line replaces the slot of its axis, becomes the last committed pair, and the host is notified |
| RealSize.RealSizeCanvas.SetScale | js/LayoutExtractor.js:507-516 | new scales, and a redraw when the picker is enabled |
| RealSize.RealSizeCanvas.GetPoints | js/LayoutExtractor.js:520-522 | the last committed pair, or nothing |
| RealSize.RealSizeCanvas.Clear | js/LayoutExtractor.js:525-533 | both slots and both point lists emptied, and the canvas cleared |
| CanvasUtils.DrawRgba | js/LayoutExtractor.js:55-76 | a payload of exactly width·height·4 bytes is painted at that size; any other size leaves a blank canvas of that size; a zero dimension throws and leaves the canvas as it was |
| CanvasUtils.ShelfPointer | js/LayoutExtractor.js:538-549 | the client position relative to the element, divided by the zoom; (0, 0) without an element; none at zoom 0 |
| LayoutScene.LayerName | js/LayoutRenderer.js:664-671 | the type name of each layer |
| LayoutScene.HiddenKey | js/LayoutRenderer.js:388 | the hidden-table key is the type name, a dash and the id |
| LayoutScene.IsInvalid | js/LayoutRenderer.js:390 | start and end areas are never invalid, because the table has no rows for them |
| LayoutScene.BoundsTight | js/LayoutRenderer.js:396-403 | the bounding box contains every point, and each bound is attained by some point |
| LayoutScene.Bounds | js/LayoutRenderer.js:396-403 | the min/max box of an item's points; `BoundsTight` states it is the tightest box |
| LayoutScene.ComputeBounds | js/LayoutRenderer.js:396-403 | the min/max loop computes `Bounds` |
| LayoutScene.StepCount | js/LayoutRenderer.js:297 | the number of iterations of `for (v = 0; v <= limit; v += step)` |
| LayoutScene.StepCountExact | js/LayoutRenderer.js:297 | iteration k runs exactly when k·step ≤ limit |
| LayoutScene.WallCmds | js/LayoutRenderer.js:346-377 | the wall is shaded and stroked exactly when it has more than one point |
| LayoutScene.FacingSide | js/LayoutRenderer.js:448-465 | facing 1 to 4 mark the top, right, bottom and left edges |
| LayoutScene.ShelfFont | js/LayoutRenderer.js:497-505 | the shelf name's font is positive, at most 12/scale, at most 0.8 of the short side, and its estimated width fits 0.9 of the long side |
| LayoutScene.HatchCmds | js/LayoutRenderer.js:579-594 | the obstacle body's hatch is made only of hatch lines |
| LayoutScene.HatchInsideBox | js/LayoutRenderer.js:582-593 | every hatch line lies inside the obstacle's box, on the diagonal at a multiple of 1000 from its corner |
| LayoutScene.DrawHatch | js/LayoutRenderer.js:582-593 | the hatch loop computes `HatchCmds` |
| LayoutScene.DrawObstacleBody | js/LayoutRenderer.js:561-659 | the obstacle body loop computes `ObstacleBody` |
| LayoutScene.ObstacleBody | js/LayoutRenderer.js:561-659 | an obstacle or column: fill, then in the main view its outline, hatch and passages; `ObstacleCmdShape` states its shape |
| LayoutScene.RectBody | js/LayoutRenderer.js:409-525 | an area or shelf: fill, then in the main view its outline, facing mark and name; `ItemCmdShape` states its shape |
| LayoutScene.ItemCmds | js/LayoutRenderer.js:387-525 | one item: nothing when hidden or of zero size, else `ObstacleBody` or `RectBody`; `ItemDrawnIffVisible` states its property |
| LayoutScene.ItemsCmds | js/LayoutRenderer.js:380-526 | the `forEach` over a list of items; `ItemsStayInLayer` states its property |
| LayoutScene.DrawItem | js/LayoutRenderer.js:387-525 | the item loop body computes `ItemCmds` |
| LayoutScene.DrawItems | js/LayoutRenderer.js:380-526 | the `forEach` over items computes `ItemsCmds` |
| LayoutScene.ItemDrawnIffVisible | js/LayoutRenderer.js:388-409 | an item draws something exactly when it is visible; it starts with its fill, marked invalid from the table; the outline appears in the main view and never in the minimap |
| LayoutScene.HiddenOnlyInMainView | js/LayoutRenderer.js:388 | the hidden table hides items in the main view only |
| LayoutScene.ItemsStayInLayer | js/LayoutRenderer.js:380-662 | every command an item list draws belongs to that list's layer |
| LayoutScene.Heading | js/LayoutRenderer.js:729-738 | an aisle direction has a glyph exactly for 1, 2, 4, 8, 3, 12 and 15 |
| LayoutScene.AsWrittenMirrorsSideways | js/LayoutRenderer.js:717-738 | in a vertical aisle, the table as written shows direction 4 as right and 8 as left after the rotation |
| LayoutScene.AisleGlyph | js/LayoutRenderer.js:717-738 | the corrected table: after the rotation every glyph points the way its direction says, and it agrees with the written table everywhere else |
| LayoutScene.AisleGlyphAsWritten | js/LayoutRenderer.js:717-738 | the glyph switch as written; `AsWrittenMirrorsSideways` shows its vertical Left and Right entries point the wrong way after the rotation |
| LayoutScene.AisleCmds | js/LayoutRenderer.js:679-792 | an aisle of positive size: floor, centre line 10 screen pixels in from each end, the arrow of `AisleGlyph`, and above scale 0.02 its name and, when AreaNumber is not undefined, its number; `AreaLabelCases` states the label |
| LayoutScene.AreaLabelCases | js/LayoutRenderer.js:772-783 | the number label is tested with `!== undefined`: a null AreaNumber prints "[null]", a number n ≥ 0 its digits padded to two in brackets, an absent one nothing |
| LayoutScene.Pad2 | js/LayoutRenderer.js:775 | `padStart(2, '0')`: two zeros for the empty string, a zero in front of one character, longer strings kept |
| LayoutScene.AreaNumberReadsBack | js/LayoutRenderer.js:775-776 | the area number's label has at least two digits, and they read back as the number |
| LayoutScene.LowHigh | js/LayoutRenderer.js:832-833 | `Math.min` and `Math.max` of the two zone ids: the smaller first, and the pair is the two ids |
| LayoutScene.LinkLabelNamesPair | js/LayoutRenderer.js:833-835 | a connector label is the same from either zone, and different pairs have different labels |
| LayoutScene.DrawZone | js/LayoutRenderer.js:795-887 | the zone loop computes `ZoneCmds` |
| LayoutScene.ZoneCmds | js/LayoutRenderer.js:795-887 | a zone: its box, its connectors, and above scale 0.002 its id label |
| LayoutScene.DrawScene | js/LayoutRenderer.js:344-892 | `_drawScene` computes `SceneCmds`: the wall, start and end areas, obstacles, columns, shelves, then aisles and zones |
| LayoutScene.SceneCmds | js/LayoutRenderer.js:344-892 | `_drawScene`'s command list; `SceneDrawOrder`, `AisleSectionHasNoBoxes` and `MinimapFillsOnly` state its properties |
| LayoutScene.AisleSectionHasNoBoxes | js/LayoutRenderer.js:674-890 | the aisle and zone section draws no item box |
| LayoutScene.SceneDrawOrder | js/LayoutRenderer.js:664-674 | the layers are drawn in the order wall, start, end, obstacle, column, shelf, then aisles |
| LayoutScene.MinimapItemsFillOnly | js/LayoutRenderer.js:409-426 | in the minimap an item draws only its fill |
| LayoutScene.MinimapFillsOnly | js/LayoutRenderer.js:344-674 | the minimap scene holds only fills and the wall |
| LayoutRendering.HiddenKeyInjective | js/LayoutRenderer.js:96-104 | two hidden keys are equal only for the same type and id |
| LayoutRendering.HiddenIff | js/LayoutRenderer.js:88-109 | an item is in the hidden table exactly when its id is in its type's list |
| LayoutRendering.InvalidIff | js/LayoutRenderer.js:117-135 | an item is marked invalid exactly when its id is in its type's list |
| LayoutRendering.AddKeys | js/LayoutRenderer.js:97 | the `forEach` adds exactly the keys of the list |
| LayoutRendering.AddIds | js/LayoutRenderer.js:129 | the `forEach` adds exactly the ids of the list |
| LayoutRendering.FitView | js/LayoutRenderer.js:148-155 | the fit is undefined exactly when the view box has a zero side |
| LayoutRendering.FitLetterbox | js/LayoutRenderer.js:148-155 | the view box fits the canvas, fills it along one axis, and is centred |
| LayoutRendering.MinimapScale | js/LayoutRenderer.js:330-332 | the layout fits the minimap and fills it along one axis |
| LayoutRendering.GridCmds | js/LayoutRenderer.js:277-310 | the grid is made only of grid lines |
| LayoutRendering.GridLinesAreMultiples | js/LayoutRenderer.js:297-306 | the vertical lines are at x = k·size for every k·size ≤ w, spanning the height, and the horizontal lines likewise |
| LayoutRendering.DrawGrid | js/LayoutRenderer.js:297-306 | the two counted loops compute `GridCmds` |
| LayoutRendering.Segments | js/LayoutRenderer.js:208-218 | one segment per pair of consecutive points |
| LayoutRendering.FlowLabels | js/LayoutRenderer.js:243-261 | one label per segment |
| LayoutRendering.FlowCmds | js/LayoutRenderer.js:187-274 | the flow path draws something exactly when it has two or more points, and ends with the start marker on the first point |
| LayoutRendering.FlowLabelsNumberSegments | js/LayoutRenderer.js:243-261 | segment i is labelled i+1, at its midpoint |
| LayoutRendering.FlowLabelsDistinct | js/LayoutRenderer.js:251 | no two segments have the same label |
| LayoutRendering.DrawFlowPath | js/LayoutRenderer.js:187-274 | the flow loops compute `FlowCmds` |
| LayoutRendering.MinimapOfEmptyLayout | js/LayoutRenderer.js:322-326 | with a layout size that is not positive, the minimap is only its background |
| LayoutRendering.ViewGridGate | js/LayoutRenderer.js:172-174 | with the grid disabled or of size 0, no grid line is drawn |
| LayoutRendering.ViewFlowGate | js/LayoutRenderer.js:180-182 | the start marker is drawn exactly when the flow path has two or more points |
| LayoutRendering.SceneHasNoGridOrFlow | js/LayoutRenderer.js:344-892 | the scene itself draws no grid line and nothing of the flow path |
| LayoutRendering.DrawView | js/LayoutRenderer.js:168-182 | the view's background, grid, scene and flow path compute `ViewCmds` |
| LayoutRendering.DrawMain | js/LayoutRenderer.js:137-185 | `render` computes `MainFrame` |
| LayoutRendering.DrawMinimap | js/LayoutRenderer.js:313-341 | `renderMinimap` computes `MinimapFrame` |
| LayoutRendering.ViewCmds | js/LayoutRenderer.js:168-182 | the fitted part of `render`: the grid when enabled, the scene, then the flow path; `ViewGridGate`, `ViewFlowGate` and `SceneHasNoGridOrFlow` state its properties |
| LayoutRendering.MainFrame | js/LayoutRenderer.js:137-185 | `render`'s command list: the clear, then the view under the fitted transform |
| LayoutRendering.MinimapFrame | js/LayoutRenderer.js:313-341 | `renderMinimap`'s command list: the background, then the fitted scene without aisles or outlines; `MinimapOfEmptyLayout` states its property |
| LayoutRendering.Renderer.constructor | js/LayoutRenderer.js:27-39 | no data, empty tables, a view box of the layout size |
| LayoutRendering.Renderer.Render | js/LayoutRenderer.js:137-185 | without data nothing changes; otherwise the screen is the main frame |
| LayoutRendering.Renderer.RenderMinimap | js/LayoutRenderer.js:313-341 | without a minimap or data nothing changes; otherwise the minimap is the minimap frame |
| LayoutRendering.Renderer.UpdateData | js/LayoutRenderer.js:75-85 | the data is replaced, the layout size follows only when both sizes are non-zero, and the screen is redrawn |
| LayoutRendering.Renderer.UpdateHiddenIds | js/LayoutRenderer.js:88-109 | with no argument nothing changes; otherwise the table is rebuilt from the three lists and both views redrawn |
| LayoutRendering.Renderer.UpdateInvalidItems | js/LayoutRenderer.js:117-135 | with no argument nothing changes; otherwise the table is rebuilt and both views redrawn |
| LayoutRendering.Renderer.UpdateViewport | js/LayoutRenderer.js:111-114 | the view box is replaced and a render queued |
| LayoutRendering.Renderer.AnimationFrame | js/LayoutRenderer.js:113 | the queued render runs once |
| LayoutRendering.Renderer.UpdateFlowPath | js/LayoutRenderer.js:42-49 | the flow path is replaced, a missing one by an empty one, and the screen redrawn |
| LayoutRendering.Renderer.UpdateGridConfig | js/LayoutRenderer.js:52-55 | the grid settings are replaced and the screen redrawn |
| LayoutRendering.Renderer.InitMinimap | js/LayoutRenderer.js:58-62 | the minimap is attached at its size and drawn |
| LayoutRendering.Renderer.Resize | js/LayoutRenderer.js:64-73 | the canvas takes the parent's size and both views are redrawn |
| Navigation.FitLayoutCentres | js/NavigationRenderer.js:71-86 | fitScale = min(w/layoutW, h/layoutH): the layout fits the canvas, fills it along one axis, and is centred |
| Navigation.FitLayout | js/NavigationRenderer.js:71-86 | the fit scale min(w/layoutW, h/layoutH) and the centring offsets; `FitLayoutCentres` states its properties |
| Navigation.WholeLayoutInView | js/NavigationRenderer.js:86-112 | at zoom 1 with the origin at 0, the layout's corners land on the centred drawn area |
| Navigation.WallCellInside | js/NavigationRenderer.js:122-134 | a wall box is inset by 5% of the cell on each side: strictly inside its cell, with the same centre |
| Navigation.WallCell | js/NavigationRenderer.js:122-134 | the wall box of a cell: inset by 5% of the cell; `WallCellInside` states its property |
| Navigation.WallCmds | js/NavigationRenderer.js:128-134 | one box per (x, y) pair of the flat list |
| Navigation.DrawWalls | js/NavigationRenderer.js:128-134 | the `i += 2` loop computes `WallCmds` |
| Navigation.ArrowStrokePointsItsWay | js/NavigationRenderer.js:155-174 | each stroke's tip is arrowSize from the centre along its heading, the tail is opposite, and the wings are symmetric about the shaft |
| Navigation.ArrowStroke | js/NavigationRenderer.js:155-174 | the shaft and wings of one heading; `ArrowStrokePointsItsWay` states its geometry |
| Navigation.HasBit | js/NavigationRenderer.js:155-174 | `dir & bit` on the 32-bit integer of dir |
| Navigation.GlyphCmds | js/NavigationRenderer.js:151-174 | one arrow cell's strokes for the set bits in the order up, down, left, right; `OneStrokePerBit` states its property |
| Navigation.OneStrokePerBit | js/NavigationRenderer.js:155-174 | an arrow cell draws one stroke per set bit among 1, 2, 4 and 8, and none for a clear bit |
| Navigation.ShadeCmds | js/NavigationRenderer.js:142-144 | one shaded cell per arrow |
| Navigation.DrawArrows | js/NavigationRenderer.js:138-180 | the two arrow loops compute `ArrowCmds` |
| Navigation.ArrowCmds | js/NavigationRenderer.js:138-180 | the shading of every arrow cell, then, when details are shown, every cell's strokes |
| Navigation.FreeCmds | js/NavigationRenderer.js:185-195 | one dot of radius 0.45·cell per (x, y) pair |
| Navigation.DrawFrees | js/NavigationRenderer.js:188-193 | the `i += 2` loop computes `FreeCmds` |
| Navigation.EmptyGridClearsOnly | js/NavigationRenderer.js:63-66 | with no walls, arrows or free cells, the frame only clears the canvas |
| Navigation.DetailsGate | js/NavigationRenderer.js:119-190 | at a zoom of 0.5 or less no arrow stroke and no free cell is drawn |
| Navigation.DetailsShown | js/NavigationRenderer.js:149-174 | above zoom 0.5 every set direction bit of every arrow cell has its stroke in the frame |
| Navigation.DrawNav | js/NavigationRenderer.js:55-198 | `render` computes `NavFrame` |
| Navigation.NavFrame | js/NavigationRenderer.js:55-198 | `render`'s command list; `EmptyGridClearsOnly`, `DetailsGate` and `DetailsShown` state its properties |
| Navigation.NavOverlay.constructor | js/NavigationRenderer.js:1-24 | no data, cell size 500, the identity view |
| Navigation.NavOverlay.Render | js/NavigationRenderer.js:55-66 | without a canvas nothing changes; otherwise the canvas shows `NavFrame` |
| Navigation.NavOverlay.Resize | js/NavigationRenderer.js:30-38 | the canvas takes the whole part of the parent's size and is redrawn whenever the parent's size differs from the canvas's, so a fractional parent size redraws on every call |
| Navigation.NavOverlay.Init | js/NavigationRenderer.js:25-38 | the canvas is attached with the layout size, then resized |
| Navigation.NavOverlay.UpdateGridData | js/NavigationRenderer.js:40-46 | the three lists are replaced, a missing one by an empty list, and the overlay redrawn |
| Navigation.NavOverlay.UpdateView | js/NavigationRenderer.js:48-53 | an unchanged transform does nothing; otherwise the transform is stored, the canvas follows its parent (redrawn at once when its size differs, kept otherwise; unchanged without a canvas) and a render is queued |
| Navigation.NavOverlay.AnimationFrame | js/NavigationRenderer.js:52 | the queued render runs once |

## Left out

- Browser plumbing is not modelled: `getScreenCTM`, `getBoundingClientRect`, the SVG `viewBox` object, DOM queries and styles. Their results are inputs: layout coordinates as `Option<Point>`, canvas positions, client sizes, and the screen scale.
- Trigonometry (`atan2`, `cos`, `sin`) is an abstract record passed to the wall tracers. Only the 5-degree quantisation and the distance test are proved. The flow path's arrow heads, drawn with trigonometry, are left out.
- `measureText` is a parameter of the real-size canvas. Zone connector label widths are left out.
- Floating point is modelled as exact reals. The grid and hatch loops' accumulated `+= step` is modelled as exact multiples of the step. `Math.sqrt` is replaced by squared comparisons and the rounded root.
- Colours, line widths, dash patterns, fonts and cursor styles are not modelled, and neither is the shelf gradient's colour. The aisles' name and number positions and font sizes are left out too.
- The obstacle passages' railings are left out; only the cleared floor of each passage is modelled.
- `requestAnimationFrame` timing is modelled as a pending flag and an explicit frame step. Each handler runs atomically, so the interleavings of `await` are not modelled.
- Host calls are requests in an outbox, and their replies are inputs. A call that throws while a drag is armed is modelled by the index of the failing call. The two awaited calls without a catch whose failure skips later assignments, `OnObjectDrawn` and the drag's `updateFinal` batch, take a `rejected` input. The hit test, box selection and ClearSelection catch their failures. A rejected toggle or shortcut call skips only `preventDefault`, which is not modelled, and the calls that are not awaited skip nothing.
- JSON parsing is not modelled. The parsed objects are inputs, and a `null` list is `None`, which the code treats as an empty list.
- Ids are integers. The `parseInt` of an attribute that is not a number is not modelled.
- `LayoutXSize` truthiness is modelled as non-zero; a NaN size is not modelled.
- LayoutRendering.Renderer.Render: a view box with a zero side makes the source divide by zero. The model stops after the clear in that case. With a lone zero side, `Math.min` of Infinity and the other ratio is finite, so the source still draws the scene at the other axis's scale; that is not modelled.
- Navigation.NavFrame: a layout size that is not positive makes the source compute with Infinity or NaN. The model stops after the clear. A lone zero side, which the source would still draw at the other axis's scale, is not modelled.
- Navigation.WallCmds: an odd-length wall list makes the source read an undefined y for the last value. That rect is NaN and invisible, and the model draws no box for it. The same holds for `FreeCmds`.
- Navigation.HasBit: `dir & bit` is modelled on the low 32 bits of an integer direction; a non-integer direction is not modelled.
- Viewport.PanZoom.MouseMove requires positive client sizes; the source divides by them.
- CanvasUtils.ShelfPointer returns none at zoom 0, where the source returns Infinity or NaN.
- `FileManager.js`, the image decoding and mask helpers, `enableBlueBrush`, the shelf-adjust zoom helpers and `initAutoResizer` are not part of this model.
- Shortcut suppression while a text field has focus is not modelled, because the code does not do it.
- The drag preview's `querySelector` for a missing element is modelled as an element with no points.
- The 'arrow' entry of the shortcut action table is unreachable, because arrow keys return earlier. It is modelled as such.

- LowerChar: only the letters A-Z are lower-cased. `toLowerCase` also lower-cases other Unicode letters, such as Ä, in key names; those are kept as they are.
- AisleCmds: for a vertical aisle with Direction 4 or 8 the model draws the corrected arrow (`AisleGlyph`). The source draws ↑ or ↓, which the rotation turns into → or ←. See Findings; `AisleGlyphAsWritten` models the source's table.
- SceneCmds: uses `AisleCmds`, so it draws the corrected arrow for vertical aisles with Direction 4 or 8.
- DrawScene: uses `SceneCmds`, so it draws the corrected arrow for vertical aisles with Direction 4 or 8.
- DrawView: uses `SceneCmds`, so it draws the corrected arrow for vertical aisles with Direction 4 or 8.
- DrawMain: uses `SceneCmds`, so it draws the corrected arrow for vertical aisles with Direction 4 or 8.
- Navigation.NavOverlay.Resize: the parent's size is a non-negative real. Canvas sizes of 2^32 or more, which the browser would wrap, are not modelled. The same holds for `Init` and `UpdateView`.

## Findings

| source | as written | input that shows it | evidently intended | confidence | as-written member | corrected member |
|---|---|---|---|---|---|---|
| js/LayoutRenderer.js:717-738 | In a vertical aisle the context is rotated by +90 degrees before the glyph is drawn. The table then picks ← for Up and → for Down, which the rotation turns into ↑ and ↓. But it picks ↑ for Left and ↓ for Right, which the rotation turns into → and ←. | A vertical aisle (h > w) with Direction 4 (Left) shows an arrow pointing right. | After the rotation every glyph points the way its direction says: Left as ← and Right as →, as in horizontal aisles. | medium, not executed | LayoutScene.AisleGlyphAsWritten (shown by LayoutScene.AsWrittenMirrorsSideways) | LayoutScene.AisleGlyph |
