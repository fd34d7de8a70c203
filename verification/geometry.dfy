/**
 Geometry built from pointer input: the rectangle being dragged and the
 bounding box of a finished polygon.

 Coordinates are integers counting hundredths of a canvas pixel, so the
 component's `toFixed(2)` rounding is the identity on them.
 */
module Geometry {
  import opened Wrappers

  /** A pointer position, also one polygon vertex `[x, y]`. */
  datatype Point = Point(x: int, y: int)

  /** The rectangle under the pointer while dragging (`newBox`). */
  datatype Rect = Rect(x: int, y: int, width: int, height: int)

  /** Geometry waiting for a label (`pendingShape`): a box, plus the
      vertices when it came from a polygon and `None` for a rectangle. */
  datatype Geom = Geom(x: int, y: int, width: int, height: int, points: Option<seq<Point>>)

  /** The zero-size rectangle a drag starts with. */
  function BeginRect(p: Point): (r: Rect)
    ensures r.x == p.x && r.y == p.y
    ensures r.width == 0 && r.height == 0
  {
    Rect(p.x, p.y, 0, 0)
  }

  /** Moves the far corner of the rectangle to the pointer; the origin stays
      and the size is allowed to become negative. */
  function DragTo(r: Rect, p: Point): (r': Rect)
    ensures r'.x == r.x && r'.y == r.y
    ensures r'.x + r'.width == p.x && r'.y + r'.height == p.y
  {
    r.(width := p.x - r.x, height := p.y - r.y)
  }

  /** The pending geometry of a finished drag: the rectangle as it is, with
      no vertices and no normalisation of a negative width or height. */
  function Freeze(r: Rect): (g: Geom)
    ensures g.points == None
    ensures g.x == r.x && g.y == r.y && g.width == r.width && g.height == r.height
  {
    Geom(r.x, r.y, r.width, r.height, None)
  }

  function Xs(pts: seq<Point>): (xs: seq<int>)
    ensures |xs| == |pts|
    ensures forall i :: 0 <= i < |pts| ==> xs[i] == pts[i].x
  {
    seq(|pts|, i requires 0 <= i < |pts| => pts[i].x)
  }

  function Ys(pts: seq<Point>): (ys: seq<int>)
    ensures |ys| == |pts|
    ensures forall i :: 0 <= i < |pts| ==> ys[i] == pts[i].y
  {
    seq(|pts|, i requires 0 <= i < |pts| => pts[i].y)
  }

  /** `Math.min(...xs)` on a non-empty list. */
  function Min(xs: seq<int>): (m: int)
    requires |xs| > 0
    ensures exists i :: 0 <= i < |xs| && xs[i] == m
    ensures forall i :: 0 <= i < |xs| ==> m <= xs[i]
  {
    if |xs| == 1 then xs[0]
    else
      var rest := Min(xs[1..]);
      assert forall i :: 1 <= i < |xs| ==> xs[i] == xs[1..][i - 1];
      if xs[0] <= rest then xs[0] else rest
  }

  /** `Math.max(...xs)` on a non-empty list. */
  function Max(xs: seq<int>): (m: int)
    requires |xs| > 0
    ensures exists i :: 0 <= i < |xs| && xs[i] == m
    ensures forall i :: 0 <= i < |xs| ==> xs[i] <= m
  {
    if |xs| == 1 then xs[0]
    else
      var rest := Max(xs[1..]);
      assert forall i :: 1 <= i < |xs| ==> xs[i] == xs[1..][i - 1];
      if rest <= xs[0] then xs[0] else rest
  }

  /** `g` is the axis-aligned bounding box of `pts`: every vertex lies in
      it and each of its four sides touches a vertex. */
  ghost predicate IsBoundingBox(g: Geom, pts: seq<Point>)
  {
    && (forall i :: 0 <= i < |pts| ==> g.x <= pts[i].x <= g.x + g.width)
    && (forall i :: 0 <= i < |pts| ==> g.y <= pts[i].y <= g.y + g.height)
    && (exists i :: 0 <= i < |pts| && pts[i].x == g.x)
    && (exists i :: 0 <= i < |pts| && pts[i].x == g.x + g.width)
    && (exists i :: 0 <= i < |pts| && pts[i].y == g.y)
    && (exists i :: 0 <= i < |pts| && pts[i].y == g.y + g.height)
  }

  /** The pending geometry of a completed polygon: its vertices in click
      order and their bounding box, taken coordinate by coordinate. */
  function PolygonBox(pts: seq<Point>): (g: Geom)
    requires |pts| > 0
    ensures g.points == Some(pts)
    ensures g.width >= 0 && g.height >= 0
    ensures IsBoundingBox(g, pts)
  {
    var xs, ys := Xs(pts), Ys(pts);
    var minX, minY := Min(xs), Min(ys);
    Geom(minX, minY, Max(xs) - minX, Max(ys) - minY, Some(pts))
  }

  /** The bounding box of a vertex list is unique: two boxes that both
      enclose the vertices and touch them on all four sides are the same
      box. */
  lemma BoundingBoxUnique(g: Geom, h: Geom, pts: seq<Point>)
    requires IsBoundingBox(g, pts) && IsBoundingBox(h, pts)
    ensures g.x == h.x && g.y == h.y && g.width == h.width && g.height == h.height
  {
    var i :| 0 <= i < |pts| && pts[i].x == g.x;
    var i' :| 0 <= i' < |pts| && pts[i'].x == h.x;
    var j :| 0 <= j < |pts| && pts[j].x == g.x + g.width;
    var j' :| 0 <= j' < |pts| && pts[j'].x == h.x + h.width;
    var k :| 0 <= k < |pts| && pts[k].y == g.y;
    var k' :| 0 <= k' < |pts| && pts[k'].y == h.y;
    var l :| 0 <= l < |pts| && pts[l].y == g.y + g.height;
    var l' :| 0 <= l' < |pts| && pts[l'].y == h.y + h.height;
  }

  /** Any box with the vertices that encloses them and touches them on all
      four sides is the box `handlePolygonComplete` computes. */
  lemma BoxOf(pts: seq<Point>, g: Geom)
    requires |pts| > 0 && g.points == Some(pts)
    requires IsBoundingBox(g, pts)
    ensures PolygonBox(pts) == g
  {
    BoundingBoxUnique(g, PolygonBox(pts), pts);
  }
}
