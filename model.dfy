/** Domain model of the editor core: transforms, shapes, styles, bounding boxes
    and the eight scale handles derived from a box.  `f32` values are `real`. */
module Model {

  function Min(a: real, b: real): real { if a <= b then a else b }
  function Max(a: real, b: real): real { if a >= b then a else b }
  function Abs(a: real): real { if a >= 0.0 then a else -a }

  /** Position, rotation (radians) and non-uniform scale of an entity. */
  datatype Transform = Transform(x: real, y: real, rotation: real, scaleX: real, scaleY: real)

  /** The default transform sits at the origin, unrotated, with unit scale:
      a zero default scale would collapse every shape created from it. */
  function DefaultTransform(): (t: Transform)
    ensures t.x == 0.0 && t.y == 0.0 && t.rotation == 0.0
    ensures t.scaleX == 1.0 && t.scaleY == 1.0
    ensures t.scaleX != 0.0 && t.scaleY != 0.0
  {
    Transform(0.0, 0.0, 0.0, 1.0, 1.0)
  }

  datatype Color = Color(r: real, g: real, b: real, a: real)
  datatype StrokeCap = Butt | Square | RoundCap
  datatype StrokeJoin = Miter | Bevel | RoundJoin

  datatype Option<T> = None | Some(value: T)

  datatype Style = Style(
    fill: Option<Color>,
    stroke: Option<Color>,
    strokeWidth: real,
    opacity: real,
    strokeCap: StrokeCap,
    strokeJoin: StrokeJoin,
    dash: seq<real>,
    dashOffset: real)

  /** `Style::default()`: no fill, no stroke, zero widths, butt caps, miter joins, no dashes. */
  function DefaultStyle(): Style
  {
    Style(None, None, 0.0, 0.0, Butt, Miter, [], 0.0)
  }

  datatype Point = Point(x: real, y: real)

  /** Rect is corner-origin, Ellipse is centre-origin, a Line's endpoint and a
      Polygon's vertices are relative to the transform position. */
  datatype Shape =
    | Rect(w: real, h: real)
    | Ellipse(rx: real, ry: real)
    | Line(x2: real, y2: real)
    | Polygon(points: seq<Point>)

  datatype BoundingBox = BoundingBox(x: real, y: real, width: real, height: real)

  predicate InBox(b: BoundingBox, px: real, py: real)
  {
    b.x <= px <= b.x + b.width && b.y <= py <= b.y + b.height
  }

  /** Running min/max accumulator; `Option<Extent>` plays the role of the
      source's `f32::INFINITY` / `NEG_INFINITY` starting values. */
  datatype Extent = Extent(minX: real, maxX: real, minY: real, maxY: real)

  /** One step of the min/max accumulation over the point (px, py). */
  function IncludePoint(acc: Option<Extent>, px: real, py: real): Extent
  {
    match acc
    case None => Extent(px, px, py, py)
    case Some(e) => Extent(Min(e.minX, px), Max(e.maxX, px), Min(e.minY, py), Max(e.maxY, py))
  }

  function ExtentBox(e: Extent): BoundingBox
  {
    BoundingBox(e.minX, e.minY, e.maxX - e.minX, e.maxY - e.minY)
  }

  /** World position of a polygon vertex: scaled, then offset by the position. */
  function WorldX(t: Transform, p: Point): real { t.x + p.x * t.scaleX }
  function WorldY(t: Transform, p: Point): real { t.y + p.y * t.scaleY }

  /** Extent of the transformed vertices, accumulated in list order. */
  function PolygonExtent(pts: seq<Point>, t: Transform): (e: Extent)
    requires |pts| > 0
    ensures forall i :: 0 <= i < |pts| ==>
      e.minX <= WorldX(t, pts[i]) <= e.maxX && e.minY <= WorldY(t, pts[i]) <= e.maxY
    decreases |pts|
  {
    var p := pts[|pts| - 1];
    if |pts| == 1 then IncludePoint(None, WorldX(t, p), WorldY(t, p))
    else IncludePoint(Some(PolygonExtent(pts[..|pts| - 1], t)), WorldX(t, p), WorldY(t, p))
  }

  /** The accumulated extent is tight: each bound is reached by some vertex. */
  lemma {:induction false} PolygonExtentTight(pts: seq<Point>, t: Transform)
    requires |pts| > 0
    ensures var e := PolygonExtent(pts, t);
      (exists i :: 0 <= i < |pts| && WorldX(t, pts[i]) == e.minX)
      && (exists i :: 0 <= i < |pts| && WorldX(t, pts[i]) == e.maxX)
      && (exists i :: 0 <= i < |pts| && WorldY(t, pts[i]) == e.minY)
      && (exists i :: 0 <= i < |pts| && WorldY(t, pts[i]) == e.maxY)
    decreases |pts|
  {
    var n := |pts| - 1;
    if n > 0 {
      var init := pts[..n];
      PolygonExtentTight(init, t);
      var e0 := PolygonExtent(init, t);
      var i1 :| 0 <= i1 < n && WorldX(t, init[i1]) == e0.minX;
      var i2 :| 0 <= i2 < n && WorldX(t, init[i2]) == e0.maxX;
      var i3 :| 0 <= i3 < n && WorldY(t, init[i3]) == e0.minY;
      var i4 :| 0 <= i4 < n && WorldY(t, init[i4]) == e0.maxY;
      assert init[i1] == pts[i1] && init[i2] == pts[i2] && init[i3] == pts[i3] && init[i4] == pts[i4];
      var e := PolygonExtent(pts, t);
      var p := pts[n];
      var j1 := if e.minX == e0.minX then i1 else n;
      var j2 := if e.maxX == e0.maxX then i2 else n;
      var j3 := if e.minY == e0.minY then i3 else n;
      var j4 := if e.maxY == e0.maxY then i4 else n;
      assert WorldX(t, pts[j1]) == e.minX && WorldX(t, pts[j2]) == e.maxX;
      assert WorldY(t, pts[j3]) == e.minY && WorldY(t, pts[j4]) == e.maxY;
    } else {
      assert WorldX(t, pts[0]) == PolygonExtent(pts, t).minX;
    }
  }

  /** `BoundingBox::from_shape`. */
  function BoundingBoxOf(t: Transform, shape: Shape): BoundingBox
  {
    match shape
    case Rect(w, h) => BoundingBox(t.x, t.y, w * t.scaleX, h * t.scaleY)
    case Ellipse(rx, ry) =>
      BoundingBox(t.x - rx * t.scaleX, t.y - ry * t.scaleY, 2.0 * rx * t.scaleX, 2.0 * ry * t.scaleY)
    case Line(x2, y2) =>
      var endX := t.x + x2 * t.scaleX;
      var endY := t.y + y2 * t.scaleY;
      BoundingBox(Min(t.x, endX), Min(t.y, endY), Abs(endX - t.x), Abs(endY - t.y))
    case Polygon(pts) =>
      if |pts| == 0 then BoundingBox(0.0, 0.0, 0.0, 0.0)
      else ExtentBox(PolygonExtent(pts, t))
  }

  /** The polygon branch of `from_shape` as the source runs it: a loop that
      updates four min/max accumulators, starting from "nothing seen yet". */
  method PolygonBoundingBox(t: Transform, pts: seq<Point>) returns (b: BoundingBox)
    ensures b == BoundingBoxOf(t, Polygon(pts))
  {
    if |pts| == 0 {
      return BoundingBox(0.0, 0.0, 0.0, 0.0);
    }
    var acc: Option<Extent> := None;
    var i := 0;
    while i < |pts|
      invariant 0 <= i <= |pts|
      invariant i == 0 <==> acc == None
      invariant i > 0 ==> acc == Some(PolygonExtent(pts[..i], t))
    {
      var wx := WorldX(t, pts[i]);
      var wy := WorldY(t, pts[i]);
      ghost var next := pts[..i + 1];
      assert next[..i] == pts[..i] && next[i] == pts[i];
      assert PolygonExtent(next, t) == IncludePoint(acc, wx, wy);
      acc := Some(IncludePoint(acc, wx, wy));
      i := i + 1;
    }
    assert pts[..i] == pts;
    b := ExtentBox(acc.value);
  }

  /** `BoundingBox::from_shape` as the source runs it: the closed-form
      branches directly, the polygon branch by its loop. */
  method ShapeBoundingBox(t: Transform, shape: Shape) returns (b: BoundingBox)
    ensures b == BoundingBoxOf(t, shape)
  {
    match shape
    case Polygon(pts) => b := PolygonBoundingBox(t, pts);
    case _ => b := BoundingBoxOf(t, shape);
  }

  /** Rect is corner-origin: its box runs from the world image of the local
      corner (0, 0) to that of the far corner (w, h). */
  lemma RectBoxAtOrigin(t: Transform, w: real, h: real)
    ensures var b := BoundingBoxOf(t, Rect(w, h));
      b.x == WorldX(t, Point(0.0, 0.0)) && b.y == WorldY(t, Point(0.0, 0.0))
      && b.x + b.width == WorldX(t, Point(w, h)) && b.y + b.height == WorldY(t, Point(w, h))
    ensures t.scaleX == 1.0 && t.scaleY == 1.0 ==> BoundingBoxOf(t, Rect(w, h)) == BoundingBox(t.x, t.y, w, h)
  {
  }

  /** Ellipse is centre-origin: the transform position is the centre of its box. */
  lemma EllipseBoxCentred(t: Transform, rx: real, ry: real)
    ensures var b := BoundingBoxOf(t, Ellipse(rx, ry));
      b.x + b.width / 2.0 == t.x && b.y + b.height / 2.0 == t.y
      && b.width == 2.0 * rx * t.scaleX && b.height == 2.0 * ry * t.scaleY
  {
  }

  /** A line's box has non-negative size and holds both (scaled) endpoints. */
  lemma LineBoxContainsEndpoints(t: Transform, x2: real, y2: real)
    ensures var b := BoundingBoxOf(t, Line(x2, y2));
      b.width >= 0.0 && b.height >= 0.0
      && InBox(b, t.x, t.y)
      && InBox(b, t.x + x2 * t.scaleX, t.y + y2 * t.scaleY)
  {
  }

  /** An empty polygon has the all-zero box; any other polygon's box has
      non-negative size, holds every transformed vertex and is tight. */
  lemma PolygonBoxContainsVertices(t: Transform, pts: seq<Point>)
    ensures |pts| == 0 ==> BoundingBoxOf(t, Polygon(pts)) == BoundingBox(0.0, 0.0, 0.0, 0.0)
    ensures var b := BoundingBoxOf(t, Polygon(pts));
      b.width >= 0.0 && b.height >= 0.0
      && (forall i :: 0 <= i < |pts| ==> InBox(b, WorldX(t, pts[i]), WorldY(t, pts[i])))
    ensures |pts| > 0 ==> var b := BoundingBoxOf(t, Polygon(pts));
      (exists i :: 0 <= i < |pts| && WorldX(t, pts[i]) == b.x)
      && (exists i :: 0 <= i < |pts| && WorldY(t, pts[i]) == b.y)
  {
    if |pts| > 0 {
      var e := PolygonExtent(pts, t);
      assert WorldX(t, pts[0]) <= e.maxX;
      PolygonExtentTight(pts, t);
    }
  }

  /** The eight manipulation handles, in the source's fixed order. */
  datatype HandleType = TopLeft | TopRight | BottomLeft | BottomRight | Top | Right | Bottom | Left

  const HandleOrder: seq<HandleType> := [TopLeft, TopRight, BottomLeft, BottomRight, Top, Right, Bottom, Left]

  /** `HandleType::to_u8`. */
  function ToU8(h: HandleType): (n: nat)
    ensures n < 8 && HandleOrder[n] == h
  {
    match h
    case TopLeft => 0
    case TopRight => 1
    case BottomLeft => 2
    case BottomRight => 3
    case Top => 4
    case Right => 5
    case Bottom => 6
    case Left => 7
  }

  /** `to_u8` is injective, onto 0..7, and agrees with the handle order. */
  lemma ToU8Injective(a: HandleType, b: HandleType)
    ensures ToU8(a) == ToU8(b) <==> a == b
  {
  }

  lemma ToU8Onto(n: nat)
    requires n < 8
    ensures ToU8(HandleOrder[n]) == n
  {
  }

  datatype ScaleHandle = ScaleHandle(handleType: HandleType, x: real, y: real, size: real)

  /** The box point a handle is centred on: a corner or an edge midpoint. */
  function Anchor(b: BoundingBox, h: HandleType): Point
  {
    match h
    case TopLeft => Point(b.x, b.y)
    case TopRight => Point(b.x + b.width, b.y)
    case BottomLeft => Point(b.x, b.y + b.height)
    case BottomRight => Point(b.x + b.width, b.y + b.height)
    case Top => Point(b.x + b.width / 2.0, b.y)
    case Right => Point(b.x + b.width, b.y + b.height / 2.0)
    case Bottom => Point(b.x + b.width / 2.0, b.y + b.height)
    case Left => Point(b.x, b.y + b.height / 2.0)
  }

  function HandleCentre(h: ScaleHandle): Point
  {
    Point(h.x + h.size / 2.0, h.y + h.size / 2.0)
  }

  /** `BoundingBox::generate_handles`: eight squares of side `size`, each centred
      on its anchor, in the order TL, TR, BL, BR, T, R, B, L. */
  function GenerateHandles(b: BoundingBox, size: real): (hs: seq<ScaleHandle>)
    ensures |hs| == 8
    ensures forall i :: 0 <= i < 8 ==> hs[i].handleType == HandleOrder[i]
    ensures forall i :: 0 <= i < 8 ==> hs[i].size == size
    ensures forall i :: 0 <= i < 8 ==> HandleCentre(hs[i]) == Anchor(b, hs[i].handleType)
  {
    var half := size / 2.0;
    [ ScaleHandle(TopLeft, b.x - half, b.y - half, size),
      ScaleHandle(TopRight, b.x + b.width - half, b.y - half, size),
      ScaleHandle(BottomLeft, b.x - half, b.y + b.height - half, size),
      ScaleHandle(BottomRight, b.x + b.width - half, b.y + b.height - half, size),
      ScaleHandle(Top, b.x + b.width / 2.0 - half, b.y - half, size),
      ScaleHandle(Right, b.x + b.width - half, b.y + b.height / 2.0 - half, size),
      ScaleHandle(Bottom, b.x + b.width / 2.0 - half, b.y + b.height - half, size),
      ScaleHandle(Left, b.x - half, b.y + b.height / 2.0 - half, size) ]
  }
}
