/** The interaction engine: resources (document, selection, input queue,
    gesture states, canvas size and DPR) and the systems one frame runs. */
module Ecs {
  import opened Model
  import opened Hitboxes
  import opened Usecases
  import opened Selections
  import opened Events
  import opened Interaction
  import opened Render

  // ----- Gesture state resources -----

  /** `MoveState`. */
  class MoveState {
    var isMoving: bool
    var initialPositions: seq<SnapshotEntry>

    constructor ()
      ensures !isMoving && initialPositions == []
    {
      isMoving := false;
      initialPositions := [];
    }
  }

  /** `ScaleState`.  `initialBounds` is `None` for the infinite sentinel box
      that a scale start leaves when none of the selected ids is found. */
  class ScaleState {
    var isScaling: bool
    var handleType: Option<HandleType>
    var initialTransforms: seq<SnapshotEntry>
    var initialBounds: Option<BoundingBox>

    constructor ()
      ensures !isScaling && handleType == None && initialTransforms == []
      ensures initialBounds == Some(BoundingBox(0.0, 0.0, 0.0, 0.0))
    {
      isScaling := false;
      handleType := None;
      initialTransforms := [];
      initialBounds := Some(BoundingBox(0.0, 0.0, 0.0, 0.0));
    }
  }

  // ----- What the create systems append -----

  /** Created shapes sit at the requested position with the default rotation and unit scale. */
  function CreatedTransform(x: real, y: real): Transform
  {
    DefaultTransform().(x := x, y := y)
  }

  /** Created shapes have a dark 2 px stroke, full opacity and no fill. */
  function CreatedStyle(): Style
  {
    DefaultStyle().(stroke := Some(Color(0.10, 0.12, 0.16, 1.0)), strokeWidth := 2.0, opacity := 1.0)
  }

  /** `PointerDownResult`: `entitySelected` is never set. */
  datatype PointerDownResult = PointerDownResult(clickedHandleType: Option<nat>, entitySelected: bool)

  datatype ShapeRequest = ShapeRequest(transform: Transform, shape: Shape)

  function RectRequests(evs: seq<CreateRect>): seq<ShapeRequest>
  {
    if evs == [] then []
    else
      var ev := evs[|evs| - 1];
      RectRequests(evs[..|evs| - 1]) + [ShapeRequest(CreatedTransform(ev.x, ev.y), Rect(ev.w, ev.h))]
  }

  function EllipseRequests(evs: seq<CreateEllipse>): seq<ShapeRequest>
  {
    if evs == [] then []
    else
      var ev := evs[|evs| - 1];
      EllipseRequests(evs[..|evs| - 1]) + [ShapeRequest(CreatedTransform(ev.x, ev.y), Ellipse(ev.rx, ev.ry))]
  }

  /** A line is stored at its first endpoint, with the second relative to it. */
  function LineRequests(evs: seq<CreateLine>): seq<ShapeRequest>
  {
    if evs == [] then []
    else
      var ev := evs[|evs| - 1];
      LineRequests(evs[..|evs| - 1]) + [ShapeRequest(CreatedTransform(ev.x1, ev.y1), Line(ev.x2 - ev.x1, ev.y2 - ev.y1))]
  }

  /** The entities `create_shape` appends for the requests, ids counting up from `firstId`. */
  function NewEntities(firstId: nat, reqs: seq<ShapeRequest>): seq<Entity>
  {
    if reqs == [] then []
    else
      var r := reqs[|reqs| - 1];
      NewEntities(firstId, reqs[..|reqs| - 1]) + [Entity(EntityId(firstId + |reqs| - 1), r.transform, CreatedStyle(), r.shape)]
  }

  /** One entity per request, in request order, with consecutive fresh ids. */
  lemma {:induction false} NewEntitiesSpec(firstId: nat, reqs: seq<ShapeRequest>)
    ensures |NewEntities(firstId, reqs)| == |reqs|
    ensures forall k :: 0 <= k < |reqs| ==>
      NewEntities(firstId, reqs)[k] == Entity(EntityId(firstId + k), reqs[k].transform, CreatedStyle(), reqs[k].shape)
  {
    if reqs != [] {
      NewEntitiesSpec(firstId, reqs[..|reqs| - 1]);
    }
  }

  /** Every created rectangle is placed at its event's point with unit scale. */
  lemma {:induction false} RectRequestsSpec(evs: seq<CreateRect>)
    ensures |RectRequests(evs)| == |evs|
    ensures forall k :: 0 <= k < |evs| ==>
      RectRequests(evs)[k] == ShapeRequest(Transform(evs[k].x, evs[k].y, 0.0, 1.0, 1.0), Rect(evs[k].w, evs[k].h))
  {
    if evs != [] {
      RectRequestsSpec(evs[..|evs| - 1]);
    }
  }

  /** Every created ellipse is centred on its event's point with unit scale. */
  lemma {:induction false} EllipseRequestsSpec(evs: seq<CreateEllipse>)
    ensures |EllipseRequests(evs)| == |evs|
    ensures forall k :: 0 <= k < |evs| ==>
      EllipseRequests(evs)[k] == ShapeRequest(Transform(evs[k].x, evs[k].y, 0.0, 1.0, 1.0), Ellipse(evs[k].rx, evs[k].ry))
  {
    if evs != [] {
      EllipseRequestsSpec(evs[..|evs| - 1]);
    }
  }

  /** Every created line starts at (x1, y1) and, in world coordinates, ends at (x2, y2). */
  lemma {:induction false} LineRequestsSpec(evs: seq<CreateLine>)
    ensures |LineRequests(evs)| == |evs|
    ensures forall k :: 0 <= k < |evs| ==>
      var r := LineRequests(evs)[k];
      r.transform == Transform(evs[k].x1, evs[k].y1, 0.0, 1.0, 1.0) && r.shape.Line?
      && WorldX(r.transform, Point(r.shape.x2, r.shape.y2)) == evs[k].x2
      && WorldY(r.transform, Point(r.shape.x2, r.shape.y2)) == evs[k].y2
  {
    if evs != [] {
      LineRequestsSpec(evs[..|evs| - 1]);
    }
  }

  // ----- Lookups the systems share -----

  /** The scan `for (id, ..) in &entities { if id == .. { ..; break } }`:
      the index of the first entity with the id. */
  method IndexOfId(es: seq<Entity>, id: EntityId) returns (r: Option<nat>)
    ensures r == FirstIndexOf(es, id)
  {
    FirstIndexOfSpec(es, id);
    var j := 0;
    while j < |es|
      invariant 0 <= j <= |es|
      invariant forall k :: 0 <= k < j ==> es[k].id != id
    {
      if es[j].id == id {
        return Some(j);
      }
      j := j + 1;
    }
    return None;
  }

  /** The same scan, yielding the entity found. */
  method EntityById(es: seq<Entity>, id: EntityId) returns (r: Option<Entity>)
    ensures r == FindEntity(es, id)
  {
    var k := IndexOfId(es, id);
    if k.Some? {
      r := Some(es[k.value]);
    } else {
      r := None;
    }
  }

  /** The min/max loop over the selected entities' boxes. */
  method CombinedBounds(sel: seq<EntityId>, es: seq<Entity>) returns (ext: Option<Extent>)
    ensures ext == CombinedExtent(sel, es)
  {
    ext := None;
    var i := 0;
    while i < |sel|
      invariant 0 <= i <= |sel|
      invariant ext == CombinedExtent(sel[..i], es)
    {
      assert sel[..i + 1][..i] == sel[..i];
      var found := EntityById(es, sel[i]);
      if found.Some? {
        var b := ShapeBoundingBox(found.value.transform, found.value.shape);
        ext := Some(IncludeBox(ext, b));
      }
      i := i + 1;
    }
    assert sel[..i] == sel;
  }

  /** The handle loop: the first of the handles `hs` whose hit circle of
      radius `r` contains the physical point (px, py). */
  method HandleUnder(hs: seq<ScaleHandle>, px: real, py: real, r: real) returns (h: Option<HandleType>)
    ensures h == FirstHandleHit(hs, px, py, r)
  {
    var i := 0;
    while i < |hs|
      invariant 0 <= i <= |hs|
      invariant FirstHandleHit(hs, px, py, r) == FirstHandleHit(hs[i..], px, py, r)
    {
      if WithinRadius(HandleCentre(hs[i]), px, py, r) {
        return Some(hs[i].handleType);
      }
      assert hs[i..][1..] == hs[i + 1..];
      i := i + 1;
    }
    return None;
  }

  /** The handle part of the pointer-down system: nothing without a selection
      or without a selected entity in the document; otherwise the first
      handle of the combined box, in physical pixels, under the CSS point (x, y). */
  method HandleAtPoint(sel: seq<EntityId>, es: seq<Entity>, dpr: real, x: real, y: real) returns (h: Option<HandleType>)
    ensures h == HandleAt(sel, es, dpr, x, y)
  {
    if sel == [] {
      return None;
    }
    var ext := CombinedBounds(sel, es);
    if ext.None? {
      return None;
    }
    var hs := GenerateHandles(PhysicalBox(ext.value, dpr), HandleSize(dpr));
    h := HandleUnder(hs, ToPhysical(x, dpr), ToPhysical(y, dpr), HandleHitRadius(dpr));
  }

  /** The entity loop: the first entity, in document order, whose hitbox
      (override, else shape-derived) contains the physical point (px, py)
      once its transform and shape are scaled to physical pixels. */
  method EntityUnder(es: seq<Entity>, hbs: seq<HitboxEntry>, dpr: real, px: real, py: real) returns (r: Option<EntityId>)
    ensures r == FirstEntityHit(es, hbs, dpr, px, py)
  {
    var j := 0;
    while j < |es|
      invariant 0 <= j <= |es|
      invariant FirstEntityHit(es, hbs, dpr, px, py) == FirstEntityHit(es[j..], hbs, dpr, px, py)
    {
      var e := es[j];
      var t := PhysicalTransform(e.transform, dpr);
      var s := PhysicalShape(e.shape, dpr);
      if HitTestEntity(px, py, e.id, t, s, hbs) {
        return Some(e.id);
      }
      assert es[j..][1..] == es[j + 1..];
      j := j + 1;
    }
    return None;
  }

  /** The move-start loop: each selected id found, with its transform. */
  method SnapshotOf(sel: seq<EntityId>, es: seq<Entity>) returns (snap: seq<SnapshotEntry>)
    ensures snap == Snapshot(sel, es)
  {
    snap := [];
    var i := 0;
    while i < |sel|
      invariant 0 <= i <= |sel|
      invariant snap == Snapshot(sel[..i], es)
    {
      assert sel[..i + 1][..i] == sel[..i];
      var found := EntityById(es, sel[i]);
      if found.Some? {
        snap := snap + [SnapshotEntry(sel[i], found.value.transform)];
      }
      i := i + 1;
    }
    assert sel[..i] == sel;
  }

  /** The scale-start loop: the snapshot and the group extent in one pass. */
  method CaptureGroup(sel: seq<EntityId>, es: seq<Entity>) returns (snap: seq<SnapshotEntry>, ext: Option<Extent>)
    ensures snap == Snapshot(sel, es)
    ensures ext == CombinedExtent(sel, es)
  {
    snap := [];
    ext := None;
    var i := 0;
    while i < |sel|
      invariant 0 <= i <= |sel|
      invariant snap == Snapshot(sel[..i], es)
      invariant ext == CombinedExtent(sel[..i], es)
    {
      assert sel[..i + 1][..i] == sel[..i];
      var found := EntityById(es, sel[i]);
      if found.Some? {
        snap := snap + [SnapshotEntry(sel[i], found.value.transform)];
        var b := ShapeBoundingBox(found.value.transform, found.value.shape);
        ext := Some(IncludeBox(ext, b));
      }
      i := i + 1;
    }
    assert sel[..i] == sel;
  }

  /** The update loop of the move and scale systems: for each snapshot entry,
      in order, the first entity with its id gets the edit applied against
      the entry's initial transform. */
  method ApplyToEntities(es: seq<Entity>, snap: seq<SnapshotEntry>, edit: Edit) returns (r: seq<Entity>)
    ensures r == ApplySnapshot(es, snap, edit)
    ensures |r| == |es| && forall k :: 0 <= k < |es| ==> r[k].id == es[k].id
  {
    ApplySnapshotAt(es, snap, edit);
    r := es;
    var i := 0;
    while i < |snap|
      invariant 0 <= i <= |snap|
      invariant r == ApplySnapshot(es, snap[..i], edit)
    {
      assert snap[..i + 1][..i] == snap[..i];
      var entry := snap[i];
      var k := IndexOfId(r, entry.id);
      if k.Some? {
        var j := k.value;
        r := r[j := r[j].(transform := ApplyEdit(edit, entry.transform, r[j].transform))];
      }
      i := i + 1;
    }
    assert snap[..i] == snap;
  }

  /** The entity loop of the render system: one draw call per entity, in
      document order, selected ones highlighted. */
  method DrawEntities(es: seq<Entity>, sel: seq<EntityId>, dpr: real) returns (calls: seq<DrawCall>)
    ensures calls == EntityCalls(es, sel, dpr)
  {
    calls := [];
    var j := 0;
    while j < |es|
      invariant 0 <= j <= |es|
      invariant calls == EntityCalls(es[..j], sel, dpr)
    {
      assert es[..j + 1][..j] == es[..j];
      var e := es[j];
      calls := calls + [DrawShape(RenderTransform(e.transform, dpr), PhysicalShape(e.shape, dpr), RenderStyle(e.style, dpr, e.id in sel))];
      j := j + 1;
    }
    assert es[..j] == es;
  }

  /** The handle part of the render system: the eight handles of the combined
      selection box, unless a move is in progress. */
  method DrawHandles(es: seq<Entity>, sel: seq<EntityId>, isMoving: bool, dpr: real) returns (calls: seq<DrawCall>)
    ensures calls == HandleCalls(es, sel, isMoving, dpr)
  {
    calls := [];
    if isMoving || sel == [] {
      return;
    }
    var ext := CombinedBounds(sel, es);
    if ext.None? {
      return;
    }
    var hs := GenerateHandles(PhysicalBox(ext.value, dpr), HandleSize(dpr));
    var k := 0;
    while k < |hs|
      invariant 0 <= k <= |hs|
      invariant calls == HandleDraws(hs[..k])
    {
      HandleDrawsSpec(hs[..k]);
      HandleDrawsSpec(hs[..k + 1]);
      calls := calls + [DrawHandle(hs[k])];
      k := k + 1;
    }
    assert hs[..k] == hs;
  }

  /** The entities after one frame's three create systems: `es` followed by
      the rectangles, then the ellipses, then the lines, numbered on from
      `firstId`. */
  function EntitiesAfterCreates(es: seq<Entity>, firstId: nat, rects: seq<CreateRect>,
                                ellipses: seq<CreateEllipse>, lines: seq<CreateLine>): seq<Entity>
  {
    es
      + NewEntities(firstId, RectRequests(rects))
      + NewEntities(firstId + |rects|, EllipseRequests(ellipses))
      + NewEntities(firstId + |rects| + |ellipses|, LineRequests(lines))
  }

  /** Entities numbered on from `first`, one id each. */
  predicate ConsecutiveIds(es: seq<Entity>, first: nat)
  {
    forall k :: 0 <= k < |es| ==> es[k].id == EntityId(first + k)
  }

  lemma NewEntitiesConsecutive(first: nat, reqs: seq<ShapeRequest>)
    ensures |NewEntities(first, reqs)| == |reqs| && ConsecutiveIds(NewEntities(first, reqs), first)
  {
    NewEntitiesSpec(first, reqs);
  }

  lemma ConsecutiveConcat(a: seq<Entity>, b: seq<Entity>, first: nat)
    requires ConsecutiveIds(a, first) && ConsecutiveIds(b, first + |a|)
    ensures ConsecutiveIds(a + b, first)
  {
    forall k | 0 <= k < |a + b|
      ensures (a + b)[k].id == EntityId(first + k)
    {
      if k >= |a| {
        assert (a + b)[k] == b[k - |a|];
      }
    }
  }

  /** Creation appends: the old entities stay in front, unchanged, and one
      new entity per event follows with consecutive ids. */
  lemma EntitiesAfterCreatesSpec(es: seq<Entity>, firstId: nat, rects: seq<CreateRect>,
                                 ellipses: seq<CreateEllipse>, lines: seq<CreateLine>)
    ensures var r := EntitiesAfterCreates(es, firstId, rects, ellipses, lines);
      |r| == |es| + |rects| + |ellipses| + |lines| && r[..|es|] == es && ConsecutiveIds(r[|es|..], firstId)
  {
    assert |RectRequests(rects)| == |rects| by { RectRequestsSpec(rects); }
    assert |EllipseRequests(ellipses)| == |ellipses| by { EllipseRequestsSpec(ellipses); }
    assert |LineRequests(lines)| == |lines| by { LineRequestsSpec(lines); }
    var a := NewEntities(firstId, RectRequests(rects));
    var b := NewEntities(firstId + |rects|, EllipseRequests(ellipses));
    var c := NewEntities(firstId + |rects| + |ellipses|, LineRequests(lines));
    NewEntitiesConsecutive(firstId, RectRequests(rects));
    NewEntitiesConsecutive(firstId + |rects|, EllipseRequests(ellipses));
    NewEntitiesConsecutive(firstId + |rects| + |ellipses|, LineRequests(lines));
    ConsecutiveConcat(a, b, firstId);
    ConsecutiveConcat(a + b, c, firstId);
    var r := EntitiesAfterCreates(es, firstId, rects, ellipses, lines);
    assert r == es + (a + b + c);
    assert r[..|es|] == es && r[|es|..] == a + b + c;
  }


  // ----- The gesture systems as steps on values -----

  /** The contents of `MoveState`. */
  datatype MoveGesture = MoveGesture(isMoving: bool, initialPositions: seq<SnapshotEntry>)

  /** The contents of `ScaleState`. */
  datatype ScaleGesture = ScaleGesture(isScaling: bool, handleType: Option<HandleType>,
                                       initialTransforms: seq<SnapshotEntry>, initialBounds: Option<BoundingBox>)

  /** Move start: with queued events and a selection, a move starts from a
      fresh snapshot; otherwise nothing changes. */
  function MoveAfterStart(m: MoveGesture, evs: seq<MoveStart>, selected: seq<EntityId>, es: seq<Entity>): MoveGesture
  {
    if evs != [] && selected != [] then MoveGesture(true, Snapshot(selected, es)) else m
  }

  /** Move update: the entities only change while a move is in progress. */
  function EntitiesAfterMoveUpdates(es: seq<Entity>, m: MoveGesture, evs: seq<MoveUpdate>, dpr: real): seq<Entity>
  {
    if evs == [] || !m.isMoving then es else MoveUpdates(es, m.initialPositions, evs, dpr)
  }

  /** Move end: any end event stops the move and drops its snapshot. */
  function MoveAfterEnd(m: MoveGesture, evs: seq<MoveEnd>): MoveGesture
  {
    if evs != [] then MoveGesture(false, []) else m
  }

  /** Scale start: the last queued event's handle, a fresh snapshot and the
      group bounds, when there is a selection. */
  function ScaleAfterStart(g: ScaleGesture, evs: seq<ScaleStart>, selected: seq<EntityId>, es: seq<Entity>): ScaleGesture
  {
    if evs != [] && selected != [] then
      ScaleGesture(true, Some(evs[|evs| - 1].handleType), Snapshot(selected, es), InitialBounds(selected, es))
    else g
  }

  /** Scale update: the entities only change while a scale with a handle is in progress. */
  function EntitiesAfterScaleUpdates(es: seq<Entity>, g: ScaleGesture, evs: seq<ScaleUpdate>): seq<Entity>
  {
    if evs == [] || !g.isScaling then es
    else match g.handleType
      case None => es
      case Some(h) => ScaleUpdates(es, g.initialTransforms, evs, h, g.initialBounds)
  }

  /** Scale end: stops the scale; the initial bounds stay as they were. */
  function ScaleAfterEnd(g: ScaleGesture, evs: seq<ScaleEnd>): ScaleGesture
  {
    if evs != [] then g.(isScaling := false, handleType := None, initialTransforms := []) else g
  }

  /** The gesture systems only ever change transforms: the entity list keeps
      its length, and every entity its id, style and shape. */
  lemma GesturesOnlyMoveAndScale(es: seq<Entity>, m: MoveGesture, mevs: seq<MoveUpdate>, dpr: real,
                                 g: ScaleGesture, sevs: seq<ScaleUpdate>)
    ensures var r := EntitiesAfterScaleUpdates(EntitiesAfterMoveUpdates(es, m, mevs, dpr), g, sevs);
      |r| == |es|
      && forall k :: 0 <= k < |es| ==> r[k].id == es[k].id && r[k].style == es[k].style && r[k].shape == es[k].shape
  {
    var es1 := EntitiesAfterMoveUpdates(es, m, mevs, dpr);
    if mevs != [] && m.isMoving {
      MoveUpdatesLastWins(es, m.initialPositions, mevs, dpr);
      ApplySnapshotAt(es, m.initialPositions, MoveEdit(mevs[|mevs| - 1], dpr));
    }
    if sevs != [] && g.isScaling && g.handleType.Some? {
      var last := sevs[|sevs| - 1];
      var f := ScaleFactors(g.handleType.value, last.dx, last.dy, g.initialBounds);
      ScaleUpdatesLastWins(es1, g.initialTransforms, sevs, g.handleType.value, g.initialBounds);
      ApplySnapshotAt(es1, g.initialTransforms, ScaleBy(f.fx, f.fy));
    }
  }

  // ----- One pass of the schedule as a step on values -----

  /** Everything the systems change: the frame counter, the selection, the
      document's entities and id counter, both gesture states and the event
      queues. */
  datatype World = World(frames: nat, selected: seq<EntityId>, entities: seq<Entity>, nextId: nat,
                         move: MoveGesture, scale: ScaleGesture,
                         pointerDown: seq<PointerDown>, createRect: seq<CreateRect>,
                         createEllipse: seq<CreateEllipse>, createLine: seq<CreateLine>,
                         moveStart: seq<MoveStart>, moveUpdate: seq<MoveUpdate>, moveEnd: seq<MoveEnd>,
                         scaleStart: seq<ScaleStart>, scaleUpdate: seq<ScaleUpdate>, scaleEnd: seq<ScaleEnd>)

  /** The first half of the schedule: tick, the clicks (resolved against the
      entities as the frame found them), then the three create systems. */
  function InputStep(w: World, hbs: seq<HitboxEntry>, dpr: real): World
  {
    var pd := PointerDowns(PointerState(w.selected, w.scaleStart), w.entities, hbs, dpr, w.pointerDown);
    w.(frames := w.frames + 1, selected := pd.selected, scaleStart := pd.scaleStarts, pointerDown := [],
       entities := EntitiesAfterCreates(w.entities, w.nextId, w.createRect, w.createEllipse, w.createLine),
       nextId := w.nextId + |w.createRect| + |w.createEllipse| + |w.createLine|,
       createRect := [], createEllipse := [], createLine := [])
  }

  /** Move start, move update and move end.  The update queue is drained
      only while a move is active. */
  function MoveStep(w: World, dpr: real): World
  {
    var m1 := MoveAfterStart(w.move, w.moveStart, w.selected, w.entities);
    w.(move := MoveAfterEnd(m1, w.moveEnd), entities := EntitiesAfterMoveUpdates(w.entities, m1, w.moveUpdate, dpr),
       moveStart := [], moveEnd := [],
       moveUpdate := if w.moveUpdate == [] || !m1.isMoving then w.moveUpdate else [])
  }

  /** Scale start, scale update and scale end.  The update queue is drained
      only while a scale is active. */
  function ScaleStep(w: World): World
  {
    var g1 := ScaleAfterStart(w.scale, w.scaleStart, w.selected, w.entities);
    w.(scale := ScaleAfterEnd(g1, w.scaleEnd), entities := EntitiesAfterScaleUpdates(w.entities, g1, w.scaleUpdate),
       scaleStart := [], scaleEnd := [],
       scaleUpdate := if w.scaleUpdate == [] || !g1.isScaling then w.scaleUpdate else [])
  }

  /** The second half of the schedule: the move gesture, then the scale
      gesture, whose start sees the entities as the move update left them. */
  function GestureStep(w: World, dpr: real): World
  {
    ScaleStep(MoveStep(w, dpr))
  }

  /** Every system but rendering, once each, in registration order. */
  function SystemsStep(w: World, hbs: seq<HitboxEntry>, dpr: real): World
  {
    GestureStep(InputStep(w, hbs, dpr), dpr)
  }

  /** After one pass every queue but the two update queues is empty, one
      fresh id is used per create event, and the entities the frame began
      with keep their place, id, style and shape; the created ones follow
      them with consecutive ids. */
  lemma SystemsStepSpec(w: World, hbs: seq<HitboxEntry>, dpr: real)
    ensures var r := SystemsStep(w, hbs, dpr);
      var created := |w.createRect| + |w.createEllipse| + |w.createLine|;
      r.frames == w.frames + 1 && r.nextId == w.nextId + created
      && r.pointerDown == [] && r.createRect == [] && r.createEllipse == [] && r.createLine == []
      && r.moveStart == [] && r.moveEnd == [] && r.scaleStart == [] && r.scaleEnd == []
      && |r.entities| == |w.entities| + created
      && (forall k :: 0 <= k < |w.entities| ==>
            r.entities[k].id == w.entities[k].id && r.entities[k].style == w.entities[k].style
            && r.entities[k].shape == w.entities[k].shape)
      && ConsecutiveIds(r.entities[|w.entities|..], w.nextId)
  {
    var w1 := InputStep(w, hbs, dpr);
    EntitiesAfterCreatesSpec(w.entities, w.nextId, w.createRect, w.createEllipse, w.createLine);
    var m1 := MoveAfterStart(w1.move, w1.moveStart, w1.selected, w1.entities);
    var es1 := EntitiesAfterMoveUpdates(w1.entities, m1, w1.moveUpdate, dpr);
    var g1 := ScaleAfterStart(w1.scale, w1.scaleStart, w1.selected, es1);
    GesturesOnlyMoveAndScale(w1.entities, m1, w1.moveUpdate, dpr, g1, w1.scaleUpdate);
    var r := SystemsStep(w, hbs, dpr);
    assert r.entities == EntitiesAfterScaleUpdates(es1, g1, w1.scaleUpdate);
    forall k | 0 <= k < |w.entities|
      ensures r.entities[k].id == w.entities[k].id
    {
      assert w1.entities[..|w.entities|][k] == w1.entities[k];
    }
    forall k | 0 <= k < |r.entities| - |w.entities|
      ensures r.entities[|w.entities|..][k].id == EntityId(w.nextId + k)
    {
      assert w1.entities[|w.entities|..][k] == w1.entities[|w.entities| + k];
    }
  }

  /** `MomentumEcsApp` with its world's resources.  The renderer is external:
      `hasRenderer` says whether one is attached and `trace` records the calls
      made on it. */
  class EcsApp {
    const doc: Document
    const selection: Selection
    const queue: InputQueue
    const moveState: MoveState
    const scaleState: ScaleState
    var frames: nat
    var canvasW: nat
    var canvasH: nat
    var dpr: real
    var hasRenderer: bool
    var trace: seq<DrawCall>

    ghost predicate Valid()
      reads this, doc, selection
    {
      doc.Valid() && selection.Valid() && dpr >= 0.5
    }

    ghost function MoveOf(): MoveGesture
      reads moveState
    {
      MoveGesture(moveState.isMoving, moveState.initialPositions)
    }

    ghost function ScaleOf(): ScaleGesture
      reads scaleState
    {
      ScaleGesture(scaleState.isScaling, scaleState.handleType, scaleState.initialTransforms, scaleState.initialBounds)
    }

    /** The resources the systems change, as one value. */
    ghost function State(): World
      reads this, doc, selection, queue, moveState, scaleState
    {
      World(frames, selection.selected, doc.entities, doc.nextId, MoveOf(), ScaleOf(),
            queue.pointerDown, queue.createRect, queue.createEllipse, queue.createLine,
            queue.moveStart, queue.moveUpdate, queue.moveEnd, queue.scaleStart, queue.scaleUpdate, queue.scaleEnd)
    }

    /** `MomentumEcsApp::default`: empty document and queues, no selection,
        no gesture, a 0 x 0 canvas at DPR 1, no renderer. */
    constructor ()
      ensures Valid()
      ensures fresh(doc) && fresh(selection) && fresh(queue) && fresh(moveState) && fresh(scaleState)
      ensures State() == World(0, [], [], 1, MoveGesture(false, []),
                               ScaleGesture(false, None, [], Some(BoundingBox(0.0, 0.0, 0.0, 0.0))),
                               [], [], [], [], [], [], [], [], [], [])
      ensures doc.hitboxes == []
      ensures frames == 0 && canvasW == 0 && canvasH == 0 && dpr == 1.0 && !hasRenderer && trace == []
    {
      doc := new Document();
      selection := new Selection();
      queue := new InputQueue();
      moveState := new MoveState();
      scaleState := new ScaleState();
      frames := 0;
      canvasW := 0;
      canvasH := 0;
      dpr := 1.0;
      hasRenderer := false;
      trace := [];
    }

    /** `detect_handle_click`: the handle under the CSS point as its `to_u8`
        code, by the same test the pointer-down system runs. */
    method DetectHandleClick(x: real, y: real) returns (r: Option<nat>)
      ensures r == match HandleAt(selection.selected, doc.entities, dpr, x, y)
                   case None => None
                   case Some(h) => Some(ToU8(h))
      ensures r.Some? ==> r.value < 8
    {
      var h := HandleAtPoint(selection.selected, doc.entities, dpr, x, y);
      if h.Some? {
        return Some(ToU8(h.value));
      }
      return None;
    }

    // ----- Systems -----

    /** `tick_system`. */
    method Tick()
      modifies this`frames
      ensures frames == old(frames) + 1
    {
      frames := frames + 1;
    }

    /** `handle_pointer_down_system`: drains the pointer-down queue and
        handles each event in arrival order against the selection as the
        earlier events left it.  A click on a handle queues a scale start;
        otherwise the first entity under the click is toggled (Ctrl) or made
        the only selection, and a click on empty canvas clears the selection
        unless Ctrl is held. */
    method PointerDownSystem()
      requires Valid()
      modifies queue`pointerDown, queue`scaleStart, selection
      ensures Valid()
      ensures queue.pointerDown == []
      ensures PointerState(selection.selected, queue.scaleStart)
        == PointerDowns(PointerState(old(selection.selected), old(queue.scaleStart)),
                        doc.entities, doc.hitboxes, dpr, old(queue.pointerDown))
    {
      var evs := queue.pointerDown;
      queue.pointerDown := [];
      var es, hbs, d := doc.entities, doc.hitboxes, dpr;
      ghost var st0 := PointerState(selection.selected, queue.scaleStart);
      var i := 0;
      while i < |evs|
        invariant 0 <= i <= |evs|
        invariant Valid() && queue.pointerDown == []
        invariant PointerState(selection.selected, queue.scaleStart) == PointerDowns(st0, es, hbs, d, evs[..i])
      {
        assert evs[..i + 1][..i] == evs[..i];
        PointerDownOne(evs[i], es, hbs, d);
        i := i + 1;
      }
      assert evs[..i] == evs;
    }

    /** The body of the pointer-down loop for one event. */
    method PointerDownOne(ev: PointerDown, es: seq<Entity>, hbs: seq<HitboxEntry>, d: real)
      requires Valid()
      modifies queue`scaleStart, selection
      ensures Valid()
      ensures PointerState(selection.selected, queue.scaleStart)
        == PointerStep(PointerState(old(selection.selected), old(queue.scaleStart)), es, hbs, d, ev)
    {
      ghost var before := PointerState(selection.selected, queue.scaleStart);
      var h := HandleAtPoint(selection.selected, es, d, ev.x, ev.y);
      if h.Some? {
        queue.scaleStart := queue.scaleStart + [ScaleStart(h.value, ev.x, ev.y)];
      } else {
        var found := EntityUnder(es, hbs, d, ToPhysical(ev.x, d), ToPhysical(ev.y, d));
        ghost var o := ResolvePointer(before.selected, es, hbs, d, ev.x, ev.y);
        ResolvePointerSpec(before.selected, es, hbs, d, ev.x, ev.y);
        assert o == if found.Some? then EntityHitOutcome(found.value) else Miss;
        if found.Some? {
          if ev.ctrlKey {
            selection.Toggle(found.value);
          } else {
            selection.Clear();
            selection.Select(found.value);
          }
        } else if !ev.ctrlKey {
          selection.Clear();
        }
        assert selection.selected == SelectionAfter(before.selected, o, ev.ctrlKey);
      }
    }

    /** `create_shape` once per request, in order. */
    method CreateAll(reqs: seq<ShapeRequest>)
      requires Valid()
      modifies doc`entities, doc`nextId
      ensures Valid()
      ensures doc.nextId == old(doc.nextId) + |reqs|
      ensures doc.entities == old(doc.entities) + NewEntities(old(doc.nextId), reqs)
    {
      var i := 0;
      while i < |reqs|
        invariant 0 <= i <= |reqs|
        invariant Valid()
        invariant doc.nextId == old(doc.nextId) + i
        invariant doc.entities == old(doc.entities) + NewEntities(old(doc.nextId), reqs[..i])
      {
        assert reqs[..i + 1][..i] == reqs[..i];
        var _ := doc.CreateShape(reqs[i].transform, CreatedStyle(), reqs[i].shape);
        i := i + 1;
      }
      assert reqs[..i] == reqs;
    }

    /** `handle_create_rect_system`. */
    method CreateRectSystem()
      requires Valid()
      modifies queue`createRect, doc`entities, doc`nextId
      ensures Valid() && queue.createRect == []
      ensures doc.nextId == old(doc.nextId) + |old(queue.createRect)|
      ensures doc.entities == old(doc.entities) + NewEntities(old(doc.nextId), RectRequests(old(queue.createRect)))
    {
      var evs := queue.createRect;
      queue.createRect := [];
      RectRequestsSpec(evs);
      CreateAll(RectRequests(evs));
    }

    /** `handle_create_ellipse_system`. */
    method CreateEllipseSystem()
      requires Valid()
      modifies queue`createEllipse, doc`entities, doc`nextId
      ensures Valid() && queue.createEllipse == []
      ensures doc.nextId == old(doc.nextId) + |old(queue.createEllipse)|
      ensures doc.entities == old(doc.entities) + NewEntities(old(doc.nextId), EllipseRequests(old(queue.createEllipse)))
    {
      var evs := queue.createEllipse;
      queue.createEllipse := [];
      EllipseRequestsSpec(evs);
      CreateAll(EllipseRequests(evs));
    }

    /** `handle_create_line_system`. */
    method CreateLineSystem()
      requires Valid()
      modifies queue`createLine, doc`entities, doc`nextId
      ensures Valid() && queue.createLine == []
      ensures doc.nextId == old(doc.nextId) + |old(queue.createLine)|
      ensures doc.entities == old(doc.entities) + NewEntities(old(doc.nextId), LineRequests(old(queue.createLine)))
    {
      var evs := queue.createLine;
      queue.createLine := [];
      LineRequestsSpec(evs);
      CreateAll(LineRequests(evs));
    }

    /** `handle_move_start_system`: with a selection, every drained event
        snapshots the selected entities and starts a move; without one the
        events are dropped. */
    method MoveStartSystem()
      modifies queue`moveStart, moveState
      ensures queue.moveStart == []
      ensures if old(queue.moveStart) != [] && selection.selected != [] then
                moveState.isMoving && moveState.initialPositions == Snapshot(selection.selected, doc.entities)
              else unchanged(moveState)
    {
      var evs := queue.moveStart;
      queue.moveStart := [];
      var i := 0;
      while i < |evs|
        invariant 0 <= i <= |evs| && queue.moveStart == []
        invariant if i > 0 && selection.selected != [] then
                    moveState.isMoving && moveState.initialPositions == Snapshot(selection.selected, doc.entities)
                  else unchanged(moveState)
      {
        if selection.selected != [] {
          var snap := SnapshotOf(selection.selected, doc.entities);
          moveState.initialPositions := snap;
          moveState.isMoving := true;
        }
        i := i + 1;
      }
    }

    /** `handle_move_update_system`: nothing happens, and the events stay
        queued, unless a move is in progress; otherwise every drained delta,
        scaled to physical pixels, moves each snapshotted entity from its
        initial position. */
    method MoveUpdateSystem()
      requires Valid()
      modifies queue`moveUpdate, doc`entities
      ensures Valid()
      ensures if old(queue.moveUpdate) == [] || !moveState.isMoving then
                queue.moveUpdate == old(queue.moveUpdate) && doc.entities == old(doc.entities)
              else
                queue.moveUpdate == []
                && doc.entities == MoveUpdates(old(doc.entities), moveState.initialPositions, old(queue.moveUpdate), dpr)
    {
      if queue.moveUpdate == [] || !moveState.isMoving {
        return;
      }
      var evs := queue.moveUpdate;
      queue.moveUpdate := [];
      var snap := moveState.initialPositions;
      var i := 0;
      while i < |evs|
        invariant 0 <= i <= |evs|
        invariant queue.moveUpdate == [] && Valid()
        invariant doc.entities == MoveUpdates(old(doc.entities), snap, evs[..i], dpr)
      {
        assert evs[..i + 1][..i] == evs[..i];
        var es := ApplyToEntities(doc.entities, snap, MoveEdit(evs[i], dpr));
        doc.entities := es;
        i := i + 1;
      }
      assert evs[..i] == evs;
    }

    /** `handle_move_end_system`. */
    method MoveEndSystem()
      modifies queue`moveEnd, moveState
      ensures queue.moveEnd == []
      ensures if old(queue.moveEnd) != [] then !moveState.isMoving && moveState.initialPositions == []
              else unchanged(moveState)
    {
      if queue.moveEnd == [] {
        return;
      }
      queue.moveEnd := [];
      moveState.isMoving := false;
      moveState.initialPositions := [];
    }

    /** `handle_scale_start_system`: with a selection, the last drained event
        decides the handle; the initial transforms and the group bounds are
        captured and a scale starts.  Without one the events are dropped. */
    method ScaleStartSystem()
      modifies queue`scaleStart, scaleState
      ensures queue.scaleStart == []
      ensures if old(queue.scaleStart) != [] && selection.selected != [] then
                var evs := old(queue.scaleStart);
                scaleState.isScaling
                && scaleState.handleType == Some(evs[|evs| - 1].handleType)
                && scaleState.initialTransforms == Snapshot(selection.selected, doc.entities)
                && scaleState.initialBounds == InitialBounds(selection.selected, doc.entities)
              else unchanged(scaleState)
    {
      var evs := queue.scaleStart;
      queue.scaleStart := [];
      var i := 0;
      while i < |evs|
        invariant 0 <= i <= |evs| && queue.scaleStart == []
        invariant if i > 0 && selection.selected != [] then
                    scaleState.isScaling
                    && scaleState.handleType == Some(evs[i - 1].handleType)
                    && scaleState.initialTransforms == Snapshot(selection.selected, doc.entities)
                    && scaleState.initialBounds == InitialBounds(selection.selected, doc.entities)
                  else unchanged(scaleState)
      {
        if selection.selected != [] {
          var snap, ext := CaptureGroup(selection.selected, doc.entities);
          scaleState.initialTransforms := snap;
          scaleState.initialBounds := if ext.Some? then Some(ExtentBox(ext.value)) else None;
          assert scaleState.initialBounds == InitialBounds(selection.selected, doc.entities);
          scaleState.handleType := Some(evs[i].handleType);
          scaleState.isScaling := true;
        }
        i := i + 1;
      }
    }

    /** `handle_scale_update_system`: nothing happens, and the events stay
        queued, unless a scale is in progress.  Otherwise the events are
        drained; without a handle type they are skipped, and with one every
        event rescales each snapshotted entity from its initial scale by the
        factors its delta gives against the initial group bounds. */
    method ScaleUpdateSystem()
      requires Valid()
      modifies queue`scaleUpdate, doc`entities
      ensures Valid()
      ensures if old(queue.scaleUpdate) == [] || !scaleState.isScaling then
                queue.scaleUpdate == old(queue.scaleUpdate) && doc.entities == old(doc.entities)
              else
                queue.scaleUpdate == []
                && doc.entities == match scaleState.handleType
                   case None => old(doc.entities)
                   case Some(h) => ScaleUpdates(old(doc.entities), scaleState.initialTransforms, old(queue.scaleUpdate), h, scaleState.initialBounds)
    {
      if queue.scaleUpdate == [] || !scaleState.isScaling {
        return;
      }
      var evs := queue.scaleUpdate;
      queue.scaleUpdate := [];
      if scaleState.handleType.None? {
        return;
      }
      var h := scaleState.handleType.value;
      var snap := scaleState.initialTransforms;
      var bounds := scaleState.initialBounds;
      var i := 0;
      while i < |evs|
        invariant 0 <= i <= |evs|
        invariant queue.scaleUpdate == [] && Valid()
        invariant doc.entities == ScaleUpdates(old(doc.entities), snap, evs[..i], h, bounds)
      {
        assert evs[..i + 1][..i] == evs[..i];
        var f := ScaleFactors(h, evs[i].dx, evs[i].dy, bounds);
        var es := ApplyToEntities(doc.entities, snap, ScaleBy(f.fx, f.fy));
        doc.entities := es;
        i := i + 1;
      }
      assert evs[..i] == evs;
    }

    /** `handle_scale_end_system`: the initial bounds are left as they were. */
    method ScaleEndSystem()
      modifies queue`scaleEnd, scaleState`isScaling, scaleState`handleType, scaleState`initialTransforms
      ensures queue.scaleEnd == []
      ensures if old(queue.scaleEnd) != [] then
                !scaleState.isScaling && scaleState.handleType == None && scaleState.initialTransforms == []
              else unchanged(scaleState)
    {
      if queue.scaleEnd == [] {
        return;
      }
      queue.scaleEnd := [];
      scaleState.isScaling := false;
      scaleState.handleType := None;
      scaleState.initialTransforms := [];
    }

    /** `render_system_with_selection_and_handles`: without a renderer
        nothing is drawn; otherwise one frame of calls is made on it. */
    method RenderSystem()
      modifies this`trace
      ensures if hasRenderer then
                trace == old(trace) + FrameCalls(doc.entities, selection.selected, moveState.isMoving, dpr, canvasW, canvasH)
              else trace == old(trace)
    {
      if !hasRenderer {
        return;
      }
      var shapes := DrawEntities(doc.entities, selection.selected, dpr);
      var handles := DrawHandles(doc.entities, selection.selected, moveState.isMoving, dpr);
      trace := trace + ([BeginFrame(canvasW, canvasH)] + shapes + handles + [EndFrame]);
    }

    /** The first half of the schedule: the frame counter, pointer-downs
        and shape creation. */
    method RunInputSystems()
      requires Valid()
      modifies this`frames, doc`entities, doc`nextId, selection
      modifies queue`pointerDown, queue`scaleStart, queue`createRect, queue`createEllipse, queue`createLine
      ensures Valid()
      ensures State() == InputStep(old(State()), doc.hitboxes, dpr)
    {
      ghost var w0 := State();
      ghost var pd := PointerDowns(PointerState(w0.selected, w0.scaleStart), w0.entities, doc.hitboxes, dpr, w0.pointerDown);
      Tick();
      assert State() == w0.(frames := w0.frames + 1);
      PointerDownSystem();
      ghost var w1 := State();
      assert w1 == w0.(frames := w0.frames + 1, selected := pd.selected, scaleStart := pd.scaleStarts, pointerDown := []);
      RunCreateSystems();
    }

    /** The three create systems: rectangles, then ellipses, then lines. */
    method RunCreateSystems()
      requires Valid()
      modifies doc`entities, doc`nextId, queue`createRect, queue`createEllipse, queue`createLine
      ensures Valid()
      ensures queue.createRect == [] && queue.createEllipse == [] && queue.createLine == []
      ensures doc.nextId == old(doc.nextId) + |old(queue.createRect)| + |old(queue.createEllipse)| + |old(queue.createLine)|
      ensures doc.entities == EntitiesAfterCreates(old(doc.entities), old(doc.nextId),
                                           old(queue.createRect), old(queue.createEllipse), old(queue.createLine))
    {
      CreateRectSystem();
      CreateEllipseSystem();
      CreateLineSystem();
    }

    /** Move start, move update and move end, in that order. */
    method RunMoveSystems()
      requires Valid()
      modifies doc`entities, moveState, queue`moveStart, queue`moveUpdate, queue`moveEnd
      ensures Valid()
      ensures State() == MoveStep(old(State()), dpr)
    {
      ghost var w0 := State();
      ghost var m1 := MoveAfterStart(w0.move, w0.moveStart, w0.selected, w0.entities);
      MoveStartSystem();
      ghost var w1 := w0.(move := m1, moveStart := []);
      assert State() == w1;
      MoveUpdateSystem();
      ghost var w2 := w1.(entities := EntitiesAfterMoveUpdates(w0.entities, m1, w0.moveUpdate, dpr),
                          moveUpdate := if w0.moveUpdate == [] || !m1.isMoving then w0.moveUpdate else []);
      assert State() == w2;
      MoveEndSystem();
    }

    /** Scale start, scale update and scale end, in that order. */
    method RunScaleSystems()
      requires Valid()
      modifies doc`entities, scaleState, queue`scaleStart, queue`scaleUpdate, queue`scaleEnd
      ensures Valid()
      ensures State() == ScaleStep(old(State()))
    {
      ghost var w0 := State();
      ghost var g1 := ScaleAfterStart(w0.scale, w0.scaleStart, w0.selected, w0.entities);
      ScaleStartSystem();
      ghost var w1 := w0.(scale := g1, scaleStart := []);
      assert State() == w1;
      ScaleUpdateSystem();
      ghost var w2 := w1.(entities := EntitiesAfterScaleUpdates(w0.entities, g1, w0.scaleUpdate),
                          scaleUpdate := if w0.scaleUpdate == [] || !g1.isScaling then w0.scaleUpdate else []);
      assert State() == w2;
      ScaleEndSystem();
    }

    /** The second half of the schedule: the move and scale gestures.  The
        scale start sees the entities as the move update left them. */
    method RunGestureSystems()
      requires Valid()
      modifies doc`entities, moveState, scaleState
      modifies queue`moveStart, queue`moveUpdate, queue`moveEnd, queue`scaleStart, queue`scaleUpdate, queue`scaleEnd
      ensures Valid()
      ensures State() == GestureStep(old(State()), dpr)
    {
      RunMoveSystems();
      RunScaleSystems();
    }

    /** Every system but rendering, in the order they are registered.
        Clicks resolve against the entities as they were when the frame
        began; the move start sees the newly created shapes; the scale start
        sees the moved entities and picks up the scale starts that the clicks
        just queued. */
    method RunSystems()
      requires Valid()
      modifies this`frames, doc`entities, doc`nextId, selection, moveState, scaleState
      modifies queue`pointerDown, queue`createRect, queue`createEllipse, queue`createLine
      modifies queue`moveStart, queue`moveUpdate, queue`moveEnd, queue`scaleStart, queue`scaleUpdate, queue`scaleEnd
      ensures Valid()
      ensures State() == SystemsStep(old(State()), doc.hitboxes, dpr)
    {
      ghost var w0 := State();
      RunInputSystems();
      ghost var w1 := State();
      assert w1 == InputStep(w0, doc.hitboxes, dpr);
      RunGestureSystems();
    }

    /** `run_frame`: the systems once each, in the order they are
        registered; the frame drawn shows the final state. */
    method RunFrame()
      requires Valid()
      modifies this`frames, this`trace, doc`entities, doc`nextId, selection, moveState, scaleState
      modifies queue`pointerDown, queue`createRect, queue`createEllipse, queue`createLine
      modifies queue`moveStart, queue`moveUpdate, queue`moveEnd, queue`scaleStart, queue`scaleUpdate, queue`scaleEnd
      ensures Valid()
      ensures State() == SystemsStep(old(State()), doc.hitboxes, dpr)
      ensures trace == old(trace)
        + (if hasRenderer then FrameCalls(doc.entities, selection.selected, moveState.isMoving, dpr, canvasW, canvasH) else [])
    {
      RunSystems();
      RenderSystem();
    }

    // ----- Entry points of the UI layer -----

    /** `send_pointer_down`: a plain click, no modifier held. */
    method SendPointerDown(x: real, y: real)
      modifies queue`pointerDown
      ensures queue.pointerDown == old(queue.pointerDown) + [PointerDown(x, y, false, false)]
    {
      queue.pointerDown := queue.pointerDown + [PointerDown(x, y, ctrlKey := false, shiftKey := false)];
    }

    /** `send_pointer_down_with_modifiers`: reports the handle under the
        point, as the selection stands before the event is handled, and
        queues the event. */
    method SendPointerDownWithModifiers(x: real, y: real, ctrlKey: bool, shiftKey: bool) returns (r: PointerDownResult)
      modifies queue`pointerDown
      ensures queue.pointerDown == old(queue.pointerDown) + [PointerDown(x, y, ctrlKey, shiftKey)]
      ensures r.clickedHandleType == match HandleAt(selection.selected, doc.entities, dpr, x, y)
                                     case None => None
                                     case Some(h) => Some(ToU8(h))
      ensures !r.entitySelected
    {
      var handle := DetectHandleClick(x, y);
      queue.pointerDown := queue.pointerDown + [PointerDown(x, y, ctrlKey, shiftKey)];
      r := PointerDownResult(handle, false);
    }

    method SendCreateRect(x: real, y: real, w: real, h: real)
      modifies queue`createRect
      ensures queue.createRect == old(queue.createRect) + [CreateRect(x, y, w, h)]
    {
      queue.createRect := queue.createRect + [CreateRect(x, y, w, h)];
    }

    method SendCreateEllipse(x: real, y: real, rx: real, ry: real)
      modifies queue`createEllipse
      ensures queue.createEllipse == old(queue.createEllipse) + [CreateEllipse(x, y, rx, ry)]
    {
      queue.createEllipse := queue.createEllipse + [CreateEllipse(x, y, rx, ry)];
    }

    method SendCreateLine(x1: real, y1: real, x2: real, y2: real)
      modifies queue`createLine
      ensures queue.createLine == old(queue.createLine) + [CreateLine(x1, y1, x2, y2)]
    {
      queue.createLine := queue.createLine + [CreateLine(x1, y1, x2, y2)];
    }

    method SendMoveStart(x: real, y: real)
      modifies queue`moveStart
      ensures queue.moveStart == old(queue.moveStart) + [MoveStart(x, y)]
    {
      queue.moveStart := queue.moveStart + [MoveStart(x, y)];
    }

    method SendMoveUpdate(dx: real, dy: real)
      modifies queue`moveUpdate
      ensures queue.moveUpdate == old(queue.moveUpdate) + [MoveUpdate(dx, dy)]
    {
      queue.moveUpdate := queue.moveUpdate + [MoveUpdate(dx, dy)];
    }

    method SendMoveEnd()
      modifies queue`moveEnd
      ensures queue.moveEnd == old(queue.moveEnd) + [MoveEnd]
    {
      queue.moveEnd := queue.moveEnd + [MoveEnd];
    }

    method SendScaleStart(handleType: HandleType, x: real, y: real)
      modifies queue`scaleStart
      ensures queue.scaleStart == old(queue.scaleStart) + [ScaleStart(handleType, x, y)]
    {
      queue.scaleStart := queue.scaleStart + [ScaleStart(handleType, x, y)];
    }

    method SendScaleUpdate(dx: real, dy: real)
      modifies queue`scaleUpdate
      ensures queue.scaleUpdate == old(queue.scaleUpdate) + [ScaleUpdate(dx, dy)]
    {
      queue.scaleUpdate := queue.scaleUpdate + [ScaleUpdate(dx, dy)];
    }

    method SendScaleEnd()
      modifies queue`scaleEnd
      ensures queue.scaleEnd == old(queue.scaleEnd) + [ScaleEnd]
    {
      queue.scaleEnd := queue.scaleEnd + [ScaleEnd];
    }

    /** `set_renderer`. */
    method AttachRenderer()
      modifies this`hasRenderer
      ensures hasRenderer
    {
      hasRenderer := true;
    }

    /** `set_canvas_size`: each side at least one pixel. */
    method SetCanvasSize(w: nat, h: nat)
      modifies this`canvasW, this`canvasH
      ensures canvasW >= 1 && canvasH >= 1
      ensures canvasW == (if w == 0 then 1 else w) && canvasH == (if h == 0 then 1 else h)
    {
      canvasW := if w == 0 then 1 else w;
      canvasH := if h == 0 then 1 else h;
    }

    /** `set_canvas_dpr`: never below 0.5. */
    method SetCanvasDpr(d: real)
      requires Valid()
      modifies this`dpr
      ensures Valid()
      ensures dpr == Max(d, 0.5)
    {
      dpr := Max(d, 0.5);
    }

    /** `get_selected_entities`, `is_moving`, `is_scaling`, `frames`. */
    function SelectedEntities(): seq<EntityId>
      reads selection
    {
      selection.selected
    }

    function IsMoving(): bool
      reads moveState
    {
      moveState.isMoving
    }

    function IsScaling(): bool
      reads scaleState
    {
      scaleState.isScaling
    }

    function Frames(): nat
      reads this
    {
      frames
    }
  }
}
