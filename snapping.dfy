/** The snapping rules of the wall tracers: per-axis snap to the coordinates of
    points already placed, and quantisation of a segment's direction to 5 degrees. */
module Snapping {
  import opened Common

  /** Distance on one axis below which a coordinate snaps to an existing point's. */
  const SnapThreshold: real := 20.0
  /** Distance from the first point within which a click closes a trace. */
  const CloseRadius: real := 15.0

  function Coord(p: Point, onX: bool): real
  {
    if onX then p.x else p.y
  }

  /** One axis of snapToExistingPoints: the coordinate of the last point in `pts`
      whose coordinate on that axis is strictly closer than 20 to `v`, or `v` itself. */
  function SnapAxis(v: real, pts: seq<Point>, onX: bool): (r: real)
    ensures r == v || exists i :: 0 <= i < |pts| && r == Coord(pts[i], onX) && Abs(v - r) < SnapThreshold
  {
    if pts == [] then v
    else if Abs(v - Coord(Last(pts), onX)) < SnapThreshold then Coord(Last(pts), onX)
    else SnapAxis(v, DropLast(pts), onX)
  }

  predicate AxisMatch(v: real, p: Point, onX: bool)
  {
    Abs(v - Coord(p, onX)) < SnapThreshold
  }

  /** With no point within the threshold on that axis, the coordinate is unchanged. */
  lemma {:induction false} SnapAxisNoMatch(v: real, pts: seq<Point>, onX: bool)
    requires forall i :: 0 <= i < |pts| ==> !AxisMatch(v, pts[i], onX)
    ensures SnapAxis(v, pts, onX) == v
  {
    if pts != [] {
      assert !AxisMatch(v, pts[|pts| - 1], onX);
      SnapAxisNoMatch(v, DropLast(pts), onX);
    }
  }

  /** Last match wins: when point i matches and no later point does, the result is
      point i's coordinate, whatever earlier points matched. */
  lemma {:induction false} SnapAxisLastMatch(v: real, pts: seq<Point>, onX: bool, i: nat)
    requires i < |pts| && AxisMatch(v, pts[i], onX)
    requires forall j :: i < j < |pts| ==> !AxisMatch(v, pts[j], onX)
    ensures SnapAxis(v, pts, onX) == Coord(pts[i], onX)
  {
    if i < |pts| - 1 {
      assert !AxisMatch(v, pts[|pts| - 1], onX);
      var init := DropLast(pts);
      assert init[i] == pts[i];
      SnapAxisLastMatch(v, init, onX, i);
    }
  }

  /** snapToExistingPoints: each axis snapped independently. */
  function SnapPoint(pos: Point, pts: seq<Point>): (r: Point)
  {
    Point(SnapAxis(pos.x, pts, true), SnapAxis(pos.y, pts, false))
  }

  /** With no points placed yet, snapping leaves the position unchanged. */
  lemma SnapPointEmpty(pos: Point)
    ensures SnapPoint(pos, []) == pos
  {
  }

  /** Snapping is not idempotent: snapping the snapped position again can move it to a
      later point that the original position was too far from. */
  lemma SnapPointNotIdempotent()
    ensures var pts := [Point(0.0, 0.0), Point(15.0, 100.0)];
            var once := SnapPoint(Point(-10.0, -100.0), pts);
            once == Point(0.0, -100.0) && SnapPoint(once, pts) == Point(15.0, -100.0)
  {
  }

  /** The loop of snapToExistingPoints, walking the points in order. */
  method SnapToExistingPoints(pos: Point, pts: seq<Point>) returns (r: Point)
    ensures r == SnapPoint(pos, pts)
  {
    var sx := pos.x;
    var sy := pos.y;
    var i := 0;
    while i < |pts|
      invariant 0 <= i <= |pts|
      invariant sx == SnapAxis(pos.x, pts[..i], true)
      invariant sy == SnapAxis(pos.y, pts[..i], false)
    {
      assert DropLast(pts[..i + 1]) == pts[..i];
      var p := pts[i];
      if Abs(pos.x - p.x) < SnapThreshold {
        sx := p.x;
      }
      if Abs(pos.y - p.y) < SnapThreshold {
        sy := p.y;
      }
      i := i + 1;
    }
    assert pts[..i] == pts;
    r := Point(sx, sy);
  }

  /** isNear with its default threshold: Euclidean distance at most 15, compared squared. */
  predicate IsNear(p: Point, q: Point)
  {
    DistSq(p, q) <= CloseRadius * CloseRadius
  }

  /** Math.round(degrees / 5) * 5. */
  function SnapDegrees(degrees: real): (s: int)
    ensures s % 5 == 0
    ensures Abs(s as real - degrees) <= 2.5
  {
    Round(degrees / 5.0) * 5
  }

  /** The trigonometry the tracers take from the browser: the direction of a vector in
      degrees (atan2 scaled by 180/pi), and the point at the square root of `distSq`
      from `from` in the direction `degrees` (cos and sin of degrees * pi / 180). */
  datatype Trig = Trig(direction: (real, real) -> real, reproject: (Point, real, int) -> Point)

  /** The outcome of snapAngleTo5Degrees: the point, and the direction it was
      re-projected at when it was re-projected. */
  datatype AngleSnap = AngleSnap(point: Point, snappedDegrees: Option<int>)

  /** snapAngleTo5Degrees: a candidate closer than 1 to the anchor is kept as is;
      otherwise it is re-projected at the same distance along the raw direction
      rounded to a multiple of 5 degrees. */
  function SnapAngle(anchor: Point, cand: Point, trig: Trig): (r: AngleSnap)
    ensures r.snappedDegrees.None? <==> DistSq(anchor, cand) < 1.0
    ensures r.snappedDegrees.None? ==> r.point == cand
    ensures r.snappedDegrees.Some? ==>
              var raw := trig.direction(cand.x - anchor.x, cand.y - anchor.y);
              var d := r.snappedDegrees.value;
              d % 5 == 0 && Abs(d as real - raw) <= 2.5 &&
              r.point == trig.reproject(anchor, DistSq(anchor, cand), d)
  {
    var d2 := DistSq(anchor, cand);
    if d2 < 1.0 then AngleSnap(cand, None)
    else
      var d := SnapDegrees(trig.direction(cand.x - anchor.x, cand.y - anchor.y));
      AngleSnap(trig.reproject(anchor, d2, d), Some(d))
  }

  /** Where a click at `pos` places the next point of a trace: snapped to the existing
      points, then angle-snapped against the last point when there is one. */
  function Place(pos: Point, pts: seq<Point>, trig: Trig): Point
  {
    var snapped := SnapPoint(pos, pts);
    if pts == [] then snapped else SnapAngle(Last(pts), snapped, trig).point
  }
}
