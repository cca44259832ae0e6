/** Interactive regions of entities and the hit tests against them.  Every
    test runs in whatever pixel space the transform passed in lives in. */
module Hitboxes {
  import opened Model

  /** `Hitbox`: derive from the shape with a tolerance, an explicit rectangle,
      circle or polygon, an OR of several regions, or no region at all. */
  datatype Hitbox =
    | FromShape(tolerance: real)
    | RectZone(x: real, y: real, w: real, h: real)
    | CircleZone(cx: real, cy: real, radius: real)
    | PolygonZone(points: seq<Point>)
    | Multiple(children: seq<Hitbox>)
    | NoZone

  /** `Hitbox::from_shape`: lines get a generous 8 px band, everything else 2 px. */
  function DefaultHitbox(shape: Shape): (h: Hitbox)
    ensures h.FromShape?
    ensures shape.Line? ==> h.tolerance == 8.0
    ensures !shape.Line? ==> h.tolerance == 2.0
  {
    match shape
    case Line(_, _) => FromShape(8.0)
    case _ => FromShape(2.0)
  }

  /** `Hitbox::scale_handle`: a circle larger than the visual handle, at least 12 px in radius. */
  function ScaleHandleHitbox(centreX: real, centreY: real, visualSize: real): (h: Hitbox)
    ensures h.CircleZone? && h.cx == centreX && h.cy == centreY
    ensures h.radius >= 12.0 && h.radius >= 0.75 * visualSize
    ensures h.radius == 12.0 || h.radius == visualSize * 0.75
  {
    CircleZone(centreX, centreY, Max(visualSize * 0.75, 12.0))
  }

  /** `Hitbox::accessible_rect`: grows each side to at least `minSize`,
      keeping the original rectangle centred inside the result. */
  function AccessibleRect(x: real, y: real, w: real, h: real, minSize: real): (r: Hitbox)
    ensures r.RectZone?
    ensures r.w >= minSize && r.h >= minSize && r.w >= w && r.h >= h
    ensures r.w == w || r.w == minSize
    ensures r.h == h || r.h == minSize
    ensures r.x + r.w / 2.0 == x + w / 2.0 && r.y + r.h / 2.0 == y + h / 2.0
  {
    var finalW := Max(w, minSize);
    var finalH := Max(h, minSize);
    var offsetX := (finalW - w) / 2.0;
    var offsetY := (finalH - h) / 2.0;
    RectZone(x - offsetX, y - offsetY, finalW, finalH)
  }

  /** The polygon edge from vertex j to vertex i, in world space, crosses the
      horizontal ray going right from (px, py).  The division is reached only
      when the two endpoints lie on opposite sides of the ray, so yj != yi. */
  predicate Crosses(pts: seq<Point>, t: Transform, px: real, py: real, i: nat, j: nat)
    requires i < |pts| && j < |pts|
  {
    var xi := WorldX(t, pts[i]);
    var yi := WorldY(t, pts[i]);
    var xj := WorldX(t, pts[j]);
    var yj := WorldY(t, pts[j]);
    ((yi > py) != (yj > py)) && (px < (xj - xi) * (py - yi) / (yj - yi) + xi)
  }

  /** The vertex visited just before vertex i: the last one for i == 0. */
  function PrevVertex(i: nat, n: nat): nat
    requires i < n
  {
    if i == 0 then n - 1 else i - 1
  }

  /** Even-odd parity of the crossings of edges (i-1 .. i) for i < k. */
  function Parity(pts: seq<Point>, t: Transform, px: real, py: real, k: nat): bool
    requires k <= |pts|
  {
    if k == 0 then false
    else Parity(pts, t, px, py, k - 1) != Crosses(pts, t, px, py, k - 1, PrevVertex(k - 1, |pts|))
  }

  /** Even-odd ray casting over all edges of the polygon. */
  function RayCast(pts: seq<Point>, t: Transform, px: real, py: real): bool
  {
    Parity(pts, t, px, py, |pts|)
  }

  /** The ray-casting loop as the source runs it: `inside` flips on every
      crossing edge, `j` trails `i` by one vertex, cyclically. */
  method PolygonContains(pts: seq<Point>, t: Transform, px: real, py: real) returns (inside: bool)
    ensures inside == (|pts| >= 3 && RayCast(pts, t, px, py))
  {
    if |pts| < 3 {
      return false;
    }
    inside := false;
    var j := |pts| - 1;
    var i := 0;
    while i < |pts|
      invariant 0 <= i <= |pts|
      invariant j < |pts|
      invariant i < |pts| ==> j == PrevVertex(i, |pts|)
      invariant inside == Parity(pts, t, px, py, i)
    {
      if Crosses(pts, t, px, py, i, j) {
        inside := !inside;
      }
      j := i;
      i := i + 1;
    }
  }

  /** `hit_test_shape`: the shape's own geometry with the given tolerance.
      A zero world radius makes the source's ellipse quotient infinite or NaN,
      which never compares `<= 1.0`, so it is a miss here.  The source's
      `sqrt(d2) <= tolerance` is stated as `tolerance >= 0 && d2 <= tolerance^2`. */
  function HitTestShape(px: real, py: real, t: Transform, shape: Shape, tolerance: real): bool
  {
    match shape
    case Rect(w, h) =>
      px >= t.x && px <= t.x + w * t.scaleX && py >= t.y && py <= t.y + h * t.scaleY
    case Ellipse(rx, ry) =>
      var wrx := rx * t.scaleX;
      var wry := ry * t.scaleY;
      var dx := px - t.x;
      var dy := py - t.y;
      if wrx == 0.0 || wry == 0.0 then false
      else (dx * dx) / (wrx * wrx) + (dy * dy) / (wry * wry) <= 1.0
    case Line(x2, y2) =>
      var wx2 := x2 * t.scaleX;
      var wy2 := y2 * t.scaleY;
      var len2 := wx2 * wx2 + wy2 * wy2;
      if len2 == 0.0 then false
      else
        var u := ((px - t.x) * wx2 + (py - t.y) * wy2) / len2;
        var uc := if u < 0.0 then 0.0 else if u > 1.0 then 1.0 else u;
        var qx := t.x + uc * wx2;
        var qy := t.y + uc * wy2;
        tolerance >= 0.0 && (px - qx) * (px - qx) + (py - qy) * (py - qy) <= tolerance * tolerance
    case Polygon(pts) =>
      |pts| >= 3 && RayCast(pts, t, px, py)
  }

  /** `Hitbox::hit_test`, dispatched on the hitbox variant. */
  function HitTest(hb: Hitbox, px: real, py: real, t: Transform, shape: Shape): bool
    decreases hb
  {
    match hb
    case FromShape(tolerance) => HitTestShape(px, py, t, shape, tolerance)
    case RectZone(x, y, w, h) =>
      var wx := t.x + x;
      var wy := t.y + y;
      px >= wx && px <= wx + w * t.scaleX && py >= wy && py <= wy + h * t.scaleY
    case CircleZone(cx, cy, radius) =>
      var wx := t.x + cx * t.scaleX;
      var wy := t.y + cy * t.scaleY;
      var wr := radius * Max(t.scaleX, t.scaleY);
      var dx := px - wx;
      var dy := py - wy;
      dx * dx + dy * dy <= wr * wr
    case PolygonZone(pts) => |pts| >= 3 && RayCast(pts, t, px, py)
    case Multiple(children) => exists i | 0 <= i < |children| :: HitTest(children[i], px, py, t, shape)
    case NoZone => false
  }

  /** Degenerate regions never hit: no region, an empty OR, a polygon region
      or polygon shape with fewer than three vertices, a zero-length line. */
  lemma DegenerateNeverHits(px: real, py: real, t: Transform, shape: Shape, pts: seq<Point>, tol: real, x2: real, y2: real)
    ensures !HitTest(NoZone, px, py, t, shape)
    ensures !HitTest(Multiple([]), px, py, t, shape)
    ensures |pts| < 3 ==> !HitTest(PolygonZone(pts), px, py, t, shape)
    ensures |pts| < 3 ==> !HitTestShape(px, py, t, Polygon(pts), tol)
    ensures x2 * t.scaleX == 0.0 && y2 * t.scaleY == 0.0 ==> !HitTestShape(px, py, t, Line(x2, y2), tol)
  {
  }

  /** An OR of regions hits exactly when one of its children does. */
  lemma MultipleHitsIffSomeChild(children: seq<Hitbox>, extra: Hitbox, px: real, py: real, t: Transform, shape: Shape)
    ensures HitTest(Multiple(children + [extra]), px, py, t, shape)
      <==> HitTest(Multiple(children), px, py, t, shape) || HitTest(extra, px, py, t, shape)
  {
    var all := children + [extra];
    if HitTest(Multiple(all), px, py, t, shape) {
      var i :| 0 <= i < |all| && HitTest(all[i], px, py, t, shape);
      if i < |children| { assert all[i] == children[i]; }
    }
    if HitTest(Multiple(children), px, py, t, shape) {
      var i :| 0 <= i < |children| && HitTest(children[i], px, py, t, shape);
      assert all[i] == children[i];
    }
    if HitTest(extra, px, py, t, shape) {
      assert all[|children|] == extra;
    }
  }

  /** A point above every vertex or at/below none (all vertices on the same
      side of the horizontal ray) is outside: no edge crosses the ray. */
  lemma {:induction false} ParityOutsideBand(pts: seq<Point>, t: Transform, px: real, py: real, k: nat)
    requires k <= |pts|
    requires (forall i :: 0 <= i < |pts| ==> WorldY(t, pts[i]) > py)
          || (forall i :: 0 <= i < |pts| ==> WorldY(t, pts[i]) <= py)
    ensures !Parity(pts, t, px, py, k)
  {
    if k > 0 {
      ParityOutsideBand(pts, t, px, py, k - 1);
      var j := PrevVertex(k - 1, |pts|);
      assert WorldY(t, pts[k - 1]) > py <==> WorldY(t, pts[j]) > py;
      assert !Crosses(pts, t, px, py, k - 1, j);
    }
  }

  lemma RayCastOutsideBand(pts: seq<Point>, t: Transform, px: real, py: real)
    requires (forall i :: 0 <= i < |pts| ==> WorldY(t, pts[i]) > py)
          || (forall i :: 0 <= i < |pts| ==> WorldY(t, pts[i]) <= py)
    ensures !RayCast(pts, t, px, py)
    ensures !HitTest(PolygonZone(pts), px, py, t, Polygon(pts))
    ensures !HitTestShape(px, py, t, Polygon(pts), 0.0)
  {
    ParityOutsideBand(pts, t, px, py, |pts|);
  }

  /** A shape-derived rectangle region hits exactly inside its bounding box. */
  lemma RectHitIffInBox(px: real, py: real, t: Transform, w: real, h: real, tol: real)
    ensures HitTestShape(px, py, t, Rect(w, h), tol) <==> InBox(BoundingBoxOf(t, Rect(w, h)), px, py)
  {
  }

  /** The accessible rectangle covers the original: at unit scale, whatever
      the original rectangle region hits, the enlarged one hits too.  (The
      source offsets the origin by the unscaled padding but scales the
      enlarged width, so at scales below 1/2 the far edge can move inwards.) */
  lemma AccessibleRectCovers(x: real, y: real, w: real, h: real, minSize: real,
                             px: real, py: real, t: Transform, shape: Shape)
    requires t.scaleX == 1.0 && t.scaleY == 1.0
    requires HitTest(RectZone(x, y, w, h), px, py, t, shape)
    ensures HitTest(AccessibleRect(x, y, w, h, minSize), px, py, t, shape)
  {
  }
}
