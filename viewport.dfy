/** Pan and zoom of the layout editor's SVG view (enablePan, panToPosition, setZoom). */
module Viewport {
  import opened Common

  const MinZoom: real := 0.2
  const MaxZoom: real := 5.0
  /** One wheel notch zooms in or out by this factor. */
  const WheelFactor: real := 1.1

  /** Calls the pan controller makes to the host application and to the canvas renderer. */
  datatype PanMsg =
    | ZoomChanged(zoom: real)                                   // OnZoomChanged
    | ViewportChanged(left: real, top: real, right: real, bottom: real) // OnViewportChanged
    | ViewOffset(x: real, y: real, zoom: real)                  // UpdateViewOffset
    | RendererViewport(view: Rect)                              // layoutRenderer.updateViewport

  /** The zoom clamped into [0.2, 5.0]. */
  function ClampZoom(z: real): (r: real)
    ensures MinZoom <= r <= MaxZoom
    ensures MinZoom <= z <= MaxZoom ==> r == z
    ensures z < MinZoom ==> r == MinZoom
    ensures z > MaxZoom ==> r == MaxZoom
  {
    Max(MinZoom, Min(MaxZoom, z))
  }

  /** applyZoom's new view box: the base size divided by the clamped zoom, with the
      centre of the old view box kept. */
  function ZoomTo(vb: Rect, baseW: real, baseH: real, z: real): (r: Rect)
    ensures r.w == baseW / ClampZoom(z) && r.h == baseH / ClampZoom(z)
    ensures r.x + r.w / 2.0 == vb.x + vb.w / 2.0
    ensures r.y + r.h / 2.0 == vb.y + vb.h / 2.0
  {
    var zc := ClampZoom(z);
    var cx := vb.x + vb.w / 2.0;
    var cy := vb.y + vb.h / 2.0;
    Rect(cx - baseW / zc / 2.0, cy - baseH / zc / 2.0, baseW / zc, baseH / zc)
  }

  /** Zooming twice to the same level is zooming once. */
  lemma ZoomToIdempotent(vb: Rect, baseW: real, baseH: real, z: real)
    ensures ZoomTo(ZoomTo(vb, baseW, baseH, z), baseW, baseH, z) == ZoomTo(vb, baseW, baseH, z)
  {
  }

  /** A zoom level reached by one wheel notch in and one out is the one started from,
      as long as the first notch stayed within range. */
  lemma WheelInOutRestores(z: real)
    requires MinZoom <= z && z * WheelFactor <= MaxZoom
    ensures ClampZoom(ClampZoom(z * WheelFactor) * (1.0 / WheelFactor)) == z
  {
  }

  /** The zoom one wheel notch leads to, before clamping. */
  function WheelZoom(zoom: real, deltaY: real): real
  {
    zoom * (if deltaY < 0.0 then WheelFactor else 1.0 / WheelFactor)
  }

  /** updateViewportBounds: the bounds and the offset, sent only when a host is attached. */
  function BoundsMsgs(vb: Rect, zoom: real, hasHost: bool): (msgs: seq<PanMsg>)
    ensures !hasHost ==> msgs == []
    ensures hasHost ==> msgs == [ViewportChanged(vb.x, vb.y, vb.x + vb.w, vb.y + vb.h), ViewOffset(vb.x, vb.y, zoom)]
  {
    if hasHost then [ViewportChanged(vb.x, vb.y, vb.x + vb.w, vb.y + vb.h), ViewOffset(vb.x, vb.y, zoom)] else []
  }

  function RendererMsgs(vb: Rect, hasRenderer: bool): seq<PanMsg>
  {
    if hasRenderer then [RendererViewport(vb)] else []
  }

  /** The view box origin while panning: the origin captured at mouse-down moved
      against the pointer's displacement, converted from pixels to layout units. */
  function PanOrigin(origin: Point, start: Point, client: Point, scaleX: real, scaleY: real): Point
  {
    Point(origin.x - (client.x - start.x) * scaleX, origin.y - (client.y - start.y) * scaleY)
  }

  /** The layout point under the pointer when panning started stays under the pointer:
      the layout position of any client position is unchanged relative to the pointer. */
  lemma PanKeepsGrabbedPoint(origin: Point, start: Point, client: Point, scaleX: real, scaleY: real, left: real, top: real)
    ensures var o := PanOrigin(origin, start, client, scaleX, scaleY);
            o.x + (client.x - left) * scaleX == origin.x + (start.x - left) * scaleX &&
            o.y + (client.y - top) * scaleY == origin.y + (start.y - top) * scaleY
  {
    var o := PanOrigin(origin, start, client, scaleX, scaleY);
    assert o.x + (client.x - left) * scaleX == origin.x - (client.x - start.x) * scaleX + (client.x - left) * scaleX;
    assert (client.x - left) * scaleX - (client.x - start.x) * scaleX == (start.x - left) * scaleX;
    assert (client.y - top) * scaleY - (client.y - start.y) * scaleY == (start.y - top) * scaleY;
  }

  /** Moving the pointer back to where the pan started restores the original origin. */
  lemma PanBackRestores(origin: Point, start: Point, scaleX: real, scaleY: real)
    ensures PanOrigin(origin, start, start, scaleX, scaleY) == origin
  {
  }

  /** Everything about a pan controller except its enabled and panning flags: what other
      controllers leave alone when they gate panning. */
  datatype PanGeometry = PanGeometry(vb: Rect, baseW: real, baseH: real, zoom: real, start: Point,
                                     origin: Point, hasHost: bool, hasRenderer: bool, outbox: seq<PanMsg>)

  /** The pan/zoom controller of one SVG element. */
  class PanZoom {
    /** The SVG view box (x, y, width, height). */
    var vb: Rect
    /** The view box size when the controller was attached: the size at zoom 1. */
    var baseW: real
    var baseH: real
    var zoom: real
    var isPanning: bool
    /** Client position of the mouse-down that started the pan. */
    var start: Point
    /** View box origin at that mouse-down. */
    var origin: Point
    var panEnabled: bool
    /** Whether a host callback object was supplied. */
    var hasHost: bool
    /** Whether the canvas renderer exists. */
    var hasRenderer: bool
    /** Every call sent so far, in order. */
    var outbox: seq<PanMsg>

    function Geometry(): PanGeometry
      reads this
    {
      PanGeometry(vb, baseW, baseH, zoom, start, origin, hasHost, hasRenderer, outbox)
    }

    /** The view box is always the base size at the current zoom, and the zoom is in range. */
    predicate Valid()
      reads this
    {
      MinZoom <= zoom <= MaxZoom && vb.w == baseW / zoom && vb.h == baseH / zoom
    }

    /** enablePan: the current view box becomes the zoom-1 size; the bounds are reported once. */
    constructor (view: Rect, host: bool, renderer: bool)
      ensures Valid()
      ensures vb == view && baseW == view.w && baseH == view.h && zoom == 1.0
      ensures !isPanning && panEnabled && origin == Point(view.x, view.y) && start == Point(0.0, 0.0)
      ensures hasHost == host && hasRenderer == renderer
      ensures outbox == BoundsMsgs(view, 1.0, host)
    {
      vb := view;
      baseW := view.w;
      baseH := view.h;
      zoom := 1.0;
      isPanning := false;
      start := Point(0.0, 0.0);
      origin := Point(view.x, view.y);
      panEnabled := true;
      hasHost := host;
      hasRenderer := renderer;
      outbox := BoundsMsgs(view, 1.0, host);
    }

    /** applyZoom(newZoom, notify). */
    method ApplyZoom(newZoom: real, notify: bool)
      requires Valid()
      modifies this
      ensures Valid()
      ensures zoom == ClampZoom(newZoom)
      ensures vb == ZoomTo(old(vb), baseW, baseH, newZoom)
      ensures outbox == old(outbox) + (if notify && hasHost then [ZoomChanged(zoom)] else [])
                        + RendererMsgs(vb, hasRenderer) + BoundsMsgs(vb, zoom, hasHost)
      ensures baseW == old(baseW) && baseH == old(baseH) && hasHost == old(hasHost) && hasRenderer == old(hasRenderer)
      ensures isPanning == old(isPanning) && panEnabled == old(panEnabled)
      ensures start == old(start) && origin == old(origin)
    {
      var z := Max(MinZoom, Min(MaxZoom, newZoom));
      var cx := vb.x + vb.w / 2.0;
      var cy := vb.y + vb.h / 2.0;
      var w := baseW / z;
      var h := baseH / z;
      vb := Rect(cx - w / 2.0, cy - h / 2.0, w, h);
      zoom := z;
      if notify && hasHost {
        outbox := outbox + [ZoomChanged(zoom)];
      }
      if hasRenderer {
        outbox := outbox + [RendererViewport(vb)];
      }
      outbox := outbox + BoundsMsgs(vb, zoom, hasHost);
    }

    /** setZoom: applyZoom without notifying the host of the zoom change. */
    method SetZoom(z: real)
      requires Valid()
      modifies this
      ensures Valid() && zoom == ClampZoom(z)
      ensures vb == ZoomTo(old(vb), baseW, baseH, z)
      ensures outbox == old(outbox) + RendererMsgs(vb, hasRenderer) + BoundsMsgs(vb, zoom, hasHost)
      ensures baseW == old(baseW) && baseH == old(baseH) && hasHost == old(hasHost) && hasRenderer == old(hasRenderer)
      ensures isPanning == old(isPanning) && panEnabled == old(panEnabled)
      ensures start == old(start) && origin == old(origin)
    {
      ApplyZoom(z, false);
    }

    /** The wheel listener: one notch in (deltaY < 0) or out, then applyZoom with notification. */
    method Wheel(deltaY: real)
      requires Valid()
      modifies this
      ensures Valid() && zoom == ClampZoom(WheelZoom(old(zoom), deltaY))
      ensures vb == ZoomTo(old(vb), baseW, baseH, WheelZoom(old(zoom), deltaY))
      ensures outbox == old(outbox) + (if hasHost then [ZoomChanged(zoom)] else [])
                        + RendererMsgs(vb, hasRenderer) + BoundsMsgs(vb, zoom, hasHost)
      ensures baseW == old(baseW) && baseH == old(baseH) && hasHost == old(hasHost) && hasRenderer == old(hasRenderer)
      ensures isPanning == old(isPanning) && panEnabled == old(panEnabled)
      ensures start == old(start) && origin == old(origin)
    {
      var factor := if deltaY < 0.0 then WheelFactor else 1.0 / WheelFactor;
      ApplyZoom(zoom * factor, true);
    }

    /** The mouse-down listener: a pan starts only with the left button, without shift,
      while panning is enabled. */
    method MouseDown(button: int, shift: bool, client: Point)
      modifies this
      ensures var starts := button == 0 && old(panEnabled) && !shift;
              (starts ==> isPanning && start == client && origin == Point(vb.x, vb.y)) &&
              (!starts ==> isPanning == old(isPanning) && start == old(start) && origin == old(origin))
      ensures vb == old(vb) && zoom == old(zoom) && panEnabled == old(panEnabled) && outbox == old(outbox)
      ensures baseW == old(baseW) && baseH == old(baseH) && hasHost == old(hasHost) && hasRenderer == old(hasRenderer)
    {
      if button != 0 || !panEnabled || shift {
        return;
      }
      isPanning := true;
      start := client;
      origin := Point(vb.x, vb.y);
    }

    /** The mouse-move listener, given the SVG element's client size. */
    method MouseMove(client: Point, clientW: real, clientH: real)
      requires clientW > 0.0 && clientH > 0.0
      requires Valid()
      modifies this
      ensures Valid()
      ensures var moves := old(isPanning) && old(panEnabled);
              (moves ==> Point(vb.x, vb.y) == PanOrigin(origin, start, client, vb.w / clientW, vb.h / clientH) &&
                         outbox == old(outbox) + RendererMsgs(vb, hasRenderer) + BoundsMsgs(vb, zoom, hasHost)) &&
              (!moves ==> vb == old(vb) && outbox == old(outbox))
      ensures vb.w == old(vb.w) && vb.h == old(vb.h) && zoom == old(zoom)
      ensures isPanning == old(isPanning) && panEnabled == old(panEnabled)
      ensures start == old(start) && origin == old(origin)
      ensures baseW == old(baseW) && baseH == old(baseH) && hasHost == old(hasHost) && hasRenderer == old(hasRenderer)
    {
      if !isPanning || !panEnabled {
        return;
      }
      var scaleX := vb.w / clientW;
      var scaleY := vb.h / clientH;
      var dxPx := client.x - start.x;
      var dyPx := client.y - start.y;
      vb := Rect(origin.x - dxPx * scaleX, origin.y - dyPx * scaleY, vb.w, vb.h);
      assert vb.w / clientW == scaleX && vb.h / clientH == scaleY;
      assert Point(vb.x, vb.y) == PanOrigin(origin, start, client, scaleX, scaleY);
      if hasRenderer {
        outbox := outbox + [RendererViewport(vb)];
      }
      outbox := outbox + BoundsMsgs(vb, zoom, hasHost);
    }

    /** The mouse-up and mouse-leave listener: reports the bounds if a pan was in progress, then ends it. */
    method MouseUp()
      modifies this
      ensures !isPanning
      ensures outbox == old(outbox) + (if old(isPanning) then BoundsMsgs(vb, zoom, hasHost) else [])
      ensures vb == old(vb) && zoom == old(zoom) && panEnabled == old(panEnabled)
      ensures start == old(start) && origin == old(origin)
      ensures baseW == old(baseW) && baseH == old(baseH) && hasHost == old(hasHost) && hasRenderer == old(hasRenderer)
    {
      if isPanning {
        outbox := outbox + BoundsMsgs(vb, zoom, hasHost);
      }
      isPanning := false;
    }

    /** __setPanEnabled: disabling ends a pan in progress. */
    method SetPanEnabled(enabled: bool)
      modifies this
      ensures panEnabled == enabled
      ensures isPanning == (old(isPanning) && enabled)
      ensures Geometry() == old(Geometry())
    {
      panEnabled := enabled;
      if !enabled && isPanning {
        isPanning := false;
      }
    }

    /** __resetPanState: ends a pan in progress. */
    method ResetPanState()
      modifies this
      ensures !isPanning && panEnabled == old(panEnabled)
      ensures Geometry() == old(Geometry())
    {
      isPanning := false;
    }

    /** panToPosition: centres the view box on a layout position, keeping its size. */
    method PanToPosition(layoutX: real, layoutY: real)
      requires Valid()
      modifies this
      ensures Valid()
      ensures vb.w == old(vb.w) && vb.h == old(vb.h)
      ensures vb.x + vb.w / 2.0 == layoutX && vb.y + vb.h / 2.0 == layoutY
      ensures outbox == old(outbox) + RendererMsgs(vb, hasRenderer)
      ensures zoom == old(zoom) && isPanning == old(isPanning) && panEnabled == old(panEnabled)
      ensures start == old(start) && origin == old(origin)
      ensures baseW == old(baseW) && baseH == old(baseH) && hasHost == old(hasHost) && hasRenderer == old(hasRenderer)
    {
      vb := Rect(layoutX - vb.w / 2.0, layoutY - vb.h / 2.0, vb.w, vb.h);
      if hasRenderer {
        outbox := outbox + [RendererViewport(vb)];
      }
    }
  }
}
