/** What the interaction systems compute, stated as functions of the
    document, the selection and the device pixel ratio (`dpr`). */
module Interaction {
  import opened Model
  import opened Hitboxes
  import opened Usecases
  import opened Selections
  import opened Events

  // ----- Looking entities up -----

  /** Index of the first entity with the given id. */
  function FirstIndexOf(es: seq<Entity>, id: EntityId): (r: Option<nat>)
    ensures r.Some? ==> r.value < |es| && es[r.value].id == id
  {
    if es == [] then None
    else if es[0].id == id then Some(0)
    else match FirstIndexOf(es[1..], id)
      case None => None
      case Some(k) => Some(k + 1)
  }

  /** The inner `for ... if id == selected_id { ...; break }` scan: found
      exactly at the first index carrying the id. */
  lemma {:induction false} FirstIndexOfSpec(es: seq<Entity>, id: EntityId)
    ensures FirstIndexOf(es, id).None? <==> forall k :: 0 <= k < |es| ==> es[k].id != id
    ensures FirstIndexOf(es, id).Some? ==>
      var k := FirstIndexOf(es, id).value;
      k < |es| && es[k].id == id && (forall j :: 0 <= j < k ==> es[j].id != id)
  {
    if es != [] && es[0].id != id {
      FirstIndexOfSpec(es[1..], id);
      if FirstIndexOf(es[1..], id).None? {
        assert forall k :: 1 <= k < |es| ==> es[k].id == es[1..][k - 1].id;
      } else {
        var k := FirstIndexOf(es[1..], id).value;
        assert forall j :: 1 <= j < k + 1 ==> es[j].id == es[1..][j - 1].id;
      }
    }
  }

  /** The first entity of the document with the given id. */
  function FindEntity(es: seq<Entity>, id: EntityId): Option<Entity>
  {
    match FirstIndexOf(es, id)
    case None => None
    case Some(k) => Some(es[k])
  }

  /** Only the ids of the entities decide where a lookup lands. */
  lemma {:induction false} FirstIndexOfIdsOnly(es: seq<Entity>, fs: seq<Entity>, id: EntityId)
    requires |es| == |fs| && forall k :: 0 <= k < |es| ==> es[k].id == fs[k].id
    ensures FirstIndexOf(es, id) == FirstIndexOf(fs, id)
  {
    if es != [] {
      FirstIndexOfIdsOnly(es[1..], fs[1..], id);
    }
  }

  // ----- Combined bounds of the selection -----

  /** One step of the `min_x = min_x.min(bbox.x)` ... accumulation. */
  function IncludeBox(acc: Option<Extent>, b: BoundingBox): Extent
  {
    match acc
    case None => Extent(b.x, b.x + b.width, b.y, b.y + b.height)
    case Some(e) => Extent(Min(e.minX, b.x), Max(e.maxX, b.x + b.width), Min(e.minY, b.y), Max(e.maxY, b.y + b.height))
  }

  /** Min/max over the boxes of the selected ids found in the document, in
      selection order; `None` when no selected id is found (the source's
      infinite sentinels survive the loop). */
  function CombinedExtent(selected: seq<EntityId>, es: seq<Entity>): Option<Extent>
  {
    if selected == [] then None
    else
      var acc := CombinedExtent(selected[..|selected| - 1], es);
      match FindEntity(es, selected[|selected| - 1])
      case None => acc
      case Some(e) => Some(IncludeBox(acc, BoundingBoxOf(e.transform, e.shape)))
  }

  /** A box inside an extent. */
  predicate BoxWithin(b: BoundingBox, e: Extent)
  {
    e.minX <= b.x && b.x + b.width <= e.maxX && e.minY <= b.y && b.y + b.height <= e.maxY
  }

  /** The combined extent is the union of the selected boxes: absent exactly
      when no selected id is in the document, otherwise containing every
      selected box and with every bound attained by one of them. */
  lemma CombinedExtentIsUnion(selected: seq<EntityId>, es: seq<Entity>)
    ensures CombinedExtent(selected, es).None? <==>
      forall i :: 0 <= i < |selected| ==> FindEntity(es, selected[i]).None?
    ensures CombinedExtent(selected, es).Some? ==>
      forall i :: 0 <= i < |selected| && FindEntity(es, selected[i]).Some? ==>
        BoxWithin(BoundingBoxOf(FindEntity(es, selected[i]).value.transform, FindEntity(es, selected[i]).value.shape),
                  CombinedExtent(selected, es).value)
    ensures CombinedExtent(selected, es).Some? ==>
      var c := CombinedExtent(selected, es).value;
      && (exists i :: (0 <= i < |selected| && FindEntity(es, selected[i]).Some? &&
            BoundingBoxOf(FindEntity(es, selected[i]).value.transform, FindEntity(es, selected[i]).value.shape).x == c.minX))
      && (exists i :: (0 <= i < |selected| && FindEntity(es, selected[i]).Some? &&
            BoundingBoxOf(FindEntity(es, selected[i]).value.transform, FindEntity(es, selected[i]).value.shape).y == c.minY))
      && (exists i :: (0 <= i < |selected| && FindEntity(es, selected[i]).Some? &&
            var b := BoundingBoxOf(FindEntity(es, selected[i]).value.transform, FindEntity(es, selected[i]).value.shape);
            b.x + b.width == c.maxX))
      && (exists i :: (0 <= i < |selected| && FindEntity(es, selected[i]).Some? &&
            var b := BoundingBoxOf(FindEntity(es, selected[i]).value.transform, FindEntity(es, selected[i]).value.shape);
            b.y + b.height == c.maxY))
  {
    CombinedExtentLowerSides(selected, es);
    CombinedExtentUpperSides(selected, es);
  }

  /** Presence, containment, and the left and top bounds attained. */
  lemma {:induction false} CombinedExtentLowerSides(selected: seq<EntityId>, es: seq<Entity>)
    ensures CombinedExtent(selected, es).None? <==>
      forall i :: 0 <= i < |selected| ==> FindEntity(es, selected[i]).None?
    ensures CombinedExtent(selected, es).Some? ==>
      forall i :: 0 <= i < |selected| && FindEntity(es, selected[i]).Some? ==>
        BoxWithin(BoundingBoxOf(FindEntity(es, selected[i]).value.transform, FindEntity(es, selected[i]).value.shape),
                  CombinedExtent(selected, es).value)
    ensures CombinedExtent(selected, es).Some? ==>
      var c := CombinedExtent(selected, es).value;
      && (exists i :: (0 <= i < |selected| && FindEntity(es, selected[i]).Some? &&
            BoundingBoxOf(FindEntity(es, selected[i]).value.transform, FindEntity(es, selected[i]).value.shape).x == c.minX))
      && (exists i :: (0 <= i < |selected| && FindEntity(es, selected[i]).Some? &&
            BoundingBoxOf(FindEntity(es, selected[i]).value.transform, FindEntity(es, selected[i]).value.shape).y == c.minY))
  {
    if selected != [] {
      var n := |selected| - 1;
      var init := selected[..n];
      CombinedExtentLowerSides(init, es);
      assert forall i :: 0 <= i < n ==> selected[i] == init[i];
      var acc := CombinedExtent(init, es);
      match FindEntity(es, selected[n])
      case None =>
      case Some(e) =>
        var c := CombinedExtent(selected, es).value;
        var b := BoundingBoxOf(e.transform, e.shape);
        if acc.None? {
          assert BoundingBoxOf(FindEntity(es, selected[n]).value.transform, FindEntity(es, selected[n]).value.shape).x == c.minX;
          assert BoundingBoxOf(FindEntity(es, selected[n]).value.transform, FindEntity(es, selected[n]).value.shape).y == c.minY;
        } else {
          if c.minX != b.x {
            var i :| 0 <= i < n && FindEntity(es, init[i]).Some? &&
              BoundingBoxOf(FindEntity(es, init[i]).value.transform, FindEntity(es, init[i]).value.shape).x == acc.value.minX;
            assert selected[i] == init[i];
          }
          if c.minY != b.y {
            var i :| 0 <= i < n && FindEntity(es, init[i]).Some? &&
              BoundingBoxOf(FindEntity(es, init[i]).value.transform, FindEntity(es, init[i]).value.shape).y == acc.value.minY;
            assert selected[i] == init[i];
          }
        }
    }
  }

  /** The right and bottom bounds are attained by some found box. */
  lemma {:induction false} CombinedExtentUpperSides(selected: seq<EntityId>, es: seq<Entity>)
    ensures CombinedExtent(selected, es).Some? ==>
      var c := CombinedExtent(selected, es).value;
      && (exists i :: (0 <= i < |selected| && FindEntity(es, selected[i]).Some? &&
            var b := BoundingBoxOf(FindEntity(es, selected[i]).value.transform, FindEntity(es, selected[i]).value.shape);
            b.x + b.width == c.maxX))
      && (exists i :: (0 <= i < |selected| && FindEntity(es, selected[i]).Some? &&
            var b := BoundingBoxOf(FindEntity(es, selected[i]).value.transform, FindEntity(es, selected[i]).value.shape);
            b.y + b.height == c.maxY))
  {
    if selected != [] {
      var n := |selected| - 1;
      var init := selected[..n];
      CombinedExtentUpperSides(init, es);
      var acc := CombinedExtent(init, es);
      match FindEntity(es, selected[n])
      case None =>
        if acc.Some? {
          var c := acc.value;
          var i :| 0 <= i < n && FindEntity(es, init[i]).Some? &&
            var b := BoundingBoxOf(FindEntity(es, init[i]).value.transform, FindEntity(es, init[i]).value.shape);
            b.x + b.width == c.maxX;
          var j :| 0 <= j < n && FindEntity(es, init[j]).Some? &&
            var b := BoundingBoxOf(FindEntity(es, init[j]).value.transform, FindEntity(es, init[j]).value.shape);
            b.y + b.height == c.maxY;
          assert selected[i] == init[i] && selected[j] == init[j];
        }
      case Some(e) =>
        var c := CombinedExtent(selected, es).value;
        var b := BoundingBoxOf(e.transform, e.shape);
        if acc.Some? && c.maxX != b.x + b.width {
          var i :| 0 <= i < n && FindEntity(es, init[i]).Some? &&
            var bi := BoundingBoxOf(FindEntity(es, init[i]).value.transform, FindEntity(es, init[i]).value.shape);
            bi.x + bi.width == acc.value.maxX;
          assert selected[i] == init[i];
        }
        if acc.Some? && c.maxY != b.y + b.height {
          var i :| 0 <= i < n && FindEntity(es, init[i]).Some? &&
            var bi := BoundingBoxOf(FindEntity(es, init[i]).value.transform, FindEntity(es, init[i]).value.shape);
            bi.y + bi.height == acc.value.maxY;
          assert selected[i] == init[i];
        }
    }
  }

  /** The combined box in CSS pixels, converted to physical pixels. */
  function PhysicalBox(e: Extent, dpr: real): BoundingBox
  {
    BoundingBox(e.minX * dpr, e.minY * dpr, (e.maxX - e.minX) * dpr, (e.maxY - e.minY) * dpr)
  }

  // ----- Handle resolution -----

  /** A CSS-pixel coordinate in physical pixels. */
  function ToPhysical(v: real, dpr: real): real { v * dpr }

  /** Side of a handle square in physical pixels. */
  function HandleSize(dpr: real): real { 10.0 * dpr }

  /** Hit radius around a handle centre: larger than the visual handle. */
  function HandleHitRadius(dpr: real): (r: real)
    ensures r >= HandleSize(dpr) * 0.75 && r >= 12.0 * dpr
    ensures r == HandleSize(dpr) * 0.75 || r == 12.0 * dpr
  {
    Max(HandleSize(dpr) * 0.75, 12.0 * dpr)
  }

  /** `sqrt(dx*dx + dy*dy) <= r`, without the square root. */
  predicate WithinRadius(c: Point, px: real, py: real, r: real)
  {
    r >= 0.0 && (px - c.x) * (px - c.x) + (py - c.y) * (py - c.y) <= r * r
  }

  /** The first handle, in generation order, whose centre is within `r`. */
  function FirstHandleHit(hs: seq<ScaleHandle>, px: real, py: real, r: real): Option<HandleType>
  {
    if hs == [] then None
    else if WithinRadius(HandleCentre(hs[0]), px, py, r) then Some(hs[0].handleType)
    else FirstHandleHit(hs[1..], px, py, r)
  }

  /** First match wins: some handle is hit exactly when the result is present,
      and it is the earliest hit handle. */
  lemma {:induction false} FirstHandleHitSpec(hs: seq<ScaleHandle>, px: real, py: real, r: real)
    ensures FirstHandleHit(hs, px, py, r).None? <==>
      forall i :: 0 <= i < |hs| ==> !WithinRadius(HandleCentre(hs[i]), px, py, r)
    ensures FirstHandleHit(hs, px, py, r).Some? ==>
      exists i :: 0 <= i < |hs| && WithinRadius(HandleCentre(hs[i]), px, py, r)
        && hs[i].handleType == FirstHandleHit(hs, px, py, r).value
        && forall j :: 0 <= j < i ==> !WithinRadius(HandleCentre(hs[j]), px, py, r)
  {
    if hs != [] && !WithinRadius(HandleCentre(hs[0]), px, py, r) {
      FirstHandleHitSpec(hs[1..], px, py, r);
      assert forall i :: 1 <= i < |hs| ==> hs[i] == hs[1..][i - 1];
      if FirstHandleHit(hs, px, py, r).Some? {
        var i :| 0 <= i < |hs[1..]| && WithinRadius(HandleCentre(hs[1..][i]), px, py, r)
          && hs[1..][i].handleType == FirstHandleHit(hs, px, py, r).value
          && forall j :: 0 <= j < i ==> !WithinRadius(HandleCentre(hs[1..][j]), px, py, r);
        assert forall j :: 0 <= j < i + 1 ==> !WithinRadius(HandleCentre(hs[j]), px, py, r);
      }
    }
  }

  /** The handle under the CSS-pixel point (x, y): the combined selection box
      is converted to physical pixels, its eight handles generated at a
      DPR-scaled size, and the click tested against each hit circle. */
  function HandleAt(selected: seq<EntityId>, es: seq<Entity>, dpr: real, x: real, y: real): Option<HandleType>
  {
    if selected == [] then None
    else match CombinedExtent(selected, es)
      case None => None
      case Some(e) =>
        FirstHandleHit(GenerateHandles(PhysicalBox(e, dpr), HandleSize(dpr)), ToPhysical(x, dpr), ToPhysical(y, dpr), HandleHitRadius(dpr))
  }

  /** With nothing selected, or none of the selected ids in the document,
      there is no handle to hit. */
  lemma NoHandleWithoutSelectedBox(selected: seq<EntityId>, es: seq<Entity>, dpr: real, x: real, y: real)
    requires forall i :: 0 <= i < |selected| ==> FindEntity(es, selected[i]).None?
    ensures HandleAt(selected, es, dpr, x, y) == None
  {
    CombinedExtentIsUnion(selected, es);
  }

  /** Clicking exactly on a corner of the combined box (at dpr 1) grabs the
      handle of that corner, as the top-left handle wins over the shape. */
  lemma CornerClickGrabsHandle(selected: seq<EntityId>, es: seq<Entity>)
    requires CombinedExtent(selected, es).Some?
    ensures selected != []
    ensures HandleAt(selected, es, 1.0, CombinedExtent(selected, es).value.minX,
                     CombinedExtent(selected, es).value.minY) == Some(TopLeft)
  {
    var e := CombinedExtent(selected, es).value;
    var b := PhysicalBox(e, 1.0);
    assert b.x == e.minX && b.y == e.minY;
    var hs := GenerateHandles(b, HandleSize(1.0));
    var c := HandleCentre(hs[0]);
    assert c == Point(e.minX, e.minY);
    assert e.minX * 1.0 == c.x && e.minY * 1.0 == c.y;
    CentreWithinRadius(c, HandleHitRadius(1.0));
  }

  /** The centre of a hit circle is inside it. */
  lemma CentreWithinRadius(c: Point, r: real)
    requires r >= 0.0
    ensures WithinRadius(c, c.x, c.y, r)
  {
    assert (c.x - c.x) * (c.x - c.x) == 0.0;
    assert (c.y - c.y) * (c.y - c.y) == 0.0;
  }

  // ----- Entity resolution -----

  /** The pointer-down system converts the transform to physical pixels by
      scaling its position and its scale factors by `dpr`. */
  function PhysicalTransform(t: Transform, dpr: real): Transform
  {
    Transform(t.x * dpr, t.y * dpr, t.rotation, t.scaleX * dpr, t.scaleY * dpr)
  }

  /** Every polygon vertex multiplied by `dpr`. */
  function ScalePoints(pts: seq<Point>, dpr: real): seq<Point>
  {
    if pts == [] then [] else [Point(pts[0].x * dpr, pts[0].y * dpr)] + ScalePoints(pts[1..], dpr)
  }

  /** Shape extents multiplied by `dpr`; the variant is kept. */
  function PhysicalShape(shape: Shape, dpr: real): Shape
  {
    match shape
    case Rect(w, h) => Rect(w * dpr, h * dpr)
    case Ellipse(rx, ry) => Ellipse(rx * dpr, ry * dpr)
    case Line(x2, y2) => Line(x2 * dpr, y2 * dpr)
    case Polygon(pts) => Polygon(ScalePoints(pts, dpr))
  }

  /** `hit_test_entity`: the override hitbox if the document has one,
      otherwise the shape-derived default. */
  function HitTestEntity(px: real, py: real, id: EntityId, t: Transform, shape: Shape, hbs: seq<HitboxEntry>): bool
  {
    match GetHitbox(hbs, id)
    case Some(h) => HitTest(h, px, py, t, shape)
    case None => HitTest(DefaultHitbox(shape), px, py, t, shape)
  }

  /** After `set_hitbox` the override alone decides the entity's hit test;
      after `remove_hitbox` the shape-derived default does. */
  lemma HitTestEntityOverride(px: real, py: real, id: EntityId, t: Transform, shape: Shape,
                              hbs: seq<HitboxEntry>, h: Hitbox)
    ensures HitTestEntity(px, py, id, t, shape, RemoveKey(hbs, id) + [HitboxEntry(id, h)]) == HitTest(h, px, py, t, shape)
    ensures HitTestEntity(px, py, id, t, shape, RemoveKey(hbs, id)) == HitTest(DefaultHitbox(shape), px, py, t, shape)
  {
    SetHitboxSpec(hbs, id, h, id);
    RemoveKeyLookup(hbs, id, id);
  }

  /** The entity-loop hit test for one entity at the physical point (px, py). */
  predicate EntityHit(e: Entity, hbs: seq<HitboxEntry>, dpr: real, px: real, py: real)
  {
    HitTestEntity(px, py, e.id, PhysicalTransform(e.transform, dpr), PhysicalShape(e.shape, dpr), hbs)
  }

  /** The first entity, in document order, hit at the physical point. */
  function FirstEntityHit(es: seq<Entity>, hbs: seq<HitboxEntry>, dpr: real, px: real, py: real): Option<EntityId>
  {
    if es == [] then None
    else if EntityHit(es[0], hbs, dpr, px, py) then Some(es[0].id)
    else FirstEntityHit(es[1..], hbs, dpr, px, py)
  }

  /** First match wins: an entity is reported exactly when one is hit, and it
      is the earliest hit entity in document order. */
  lemma {:induction false} FirstEntityHitSpec(es: seq<Entity>, hbs: seq<HitboxEntry>, dpr: real, px: real, py: real)
    ensures FirstEntityHit(es, hbs, dpr, px, py).None? <==>
      forall i :: 0 <= i < |es| ==> !EntityHit(es[i], hbs, dpr, px, py)
    ensures FirstEntityHit(es, hbs, dpr, px, py).Some? ==>
      exists i :: 0 <= i < |es| && EntityHit(es[i], hbs, dpr, px, py)
        && es[i].id == FirstEntityHit(es, hbs, dpr, px, py).value
        && forall j :: 0 <= j < i ==> !EntityHit(es[j], hbs, dpr, px, py)
  {
    if es != [] && !EntityHit(es[0], hbs, dpr, px, py) {
      FirstEntityHitSpec(es[1..], hbs, dpr, px, py);
      assert forall i :: 1 <= i < |es| ==> es[i] == es[1..][i - 1];
      if FirstEntityHit(es, hbs, dpr, px, py).Some? {
        var i :| 0 <= i < |es[1..]| && EntityHit(es[1..][i], hbs, dpr, px, py)
          && es[1..][i].id == FirstEntityHit(es, hbs, dpr, px, py).value
          && forall j :: 0 <= j < i ==> !EntityHit(es[1..][j], hbs, dpr, px, py);
        assert forall j :: 0 <= j < i + 1 ==> !EntityHit(es[j], hbs, dpr, px, py);
      }
    }
  }

  /** The entity loop scales the transform's scale AND the shape's extents by
      `dpr`, so the hit area grows with `dpr` squared while the drawn shape
      grows with `dpr`: at dpr 2 an unscaled w x h rectangle is hit by a click
      at 1.5 w, 1.5 h from its corner, outside the box it occupies. */
  lemma PointerHitAreaGrowsWithDprSquared(id: EntityId, x: real, y: real, w: real, h: real)
    requires w > 0.0 && h > 0.0
    ensures EntityHit(Entity(id, Transform(x, y, 0.0, 1.0, 1.0), DefaultStyle(), Rect(w, h)), [],
                      2.0, (x + 1.5 * w) * 2.0, (y + 1.5 * h) * 2.0)
    ensures !InBox(BoundingBoxOf(Transform(x, y, 0.0, 1.0, 1.0), Rect(w, h)), x + 1.5 * w, y + 1.5 * h)
  {
    var t := Transform(x * 2.0, y * 2.0, 0.0, 2.0, 2.0);
    assert PhysicalTransform(Transform(x, y, 0.0, 1.0, 1.0), 2.0) == t;
    assert HitTestShape((x + 1.5 * w) * 2.0, (y + 1.5 * h) * 2.0, t, Rect(w * 2.0, h * 2.0), 2.0);
  }

  // ----- One pointer-down event -----

  /** What a pointer-down resolves to: handles take priority over entities. */
  datatype PointerOutcome = HandleHit(handleType: HandleType) | EntityHitOutcome(id: EntityId) | Miss

  function ResolvePointer(selected: seq<EntityId>, es: seq<Entity>, hbs: seq<HitboxEntry>, dpr: real, x: real, y: real): PointerOutcome
  {
    match HandleAt(selected, es, dpr, x, y)
    case Some(h) => HandleHit(h)
    case None =>
      match FirstEntityHit(es, hbs, dpr, ToPhysical(x, dpr), ToPhysical(y, dpr))
      case Some(id) => EntityHitOutcome(id)
      case None => Miss
  }

  /** Handles take priority: an entity counts only when no handle is under
      the click, and a miss is neither. */
  lemma ResolvePointerSpec(selected: seq<EntityId>, es: seq<Entity>, hbs: seq<HitboxEntry>, dpr: real, x: real, y: real)
    ensures var o := ResolvePointer(selected, es, hbs, dpr, x, y);
      var h := HandleAt(selected, es, dpr, x, y);
      var f := FirstEntityHit(es, hbs, dpr, ToPhysical(x, dpr), ToPhysical(y, dpr));
      (o.HandleHit? <==> h.Some?) && (o.HandleHit? ==> h == Some(o.handleType))
      && (o.EntityHitOutcome? <==> h.None? && f.Some?) && (o.EntityHitOutcome? ==> f == Some(o.id))
      && (o.Miss? <==> h.None? && f.None?)
  {
  }

  /** The selection after one event: a handle hit leaves it alone; an entity
      hit toggles under Ctrl and selects only that entity otherwise; a miss
      clears it unless Ctrl is held. */
  function SelectionAfter(selected: seq<EntityId>, outcome: PointerOutcome, ctrl: bool): seq<EntityId>
  {
    match outcome
    case HandleHit(_) => selected
    case EntityHitOutcome(id) => if ctrl then Toggled(selected, id) else Added([], id)
    case Miss => if ctrl then selected else []
  }

  /** Every pointer-down keeps the selection free of duplicates, and leaves at
      most one entity selected unless Ctrl is held. */
  lemma SelectionAfterSpec(selected: seq<EntityId>, outcome: PointerOutcome, ctrl: bool)
    requires NoDuplicates(selected)
    ensures NoDuplicates(SelectionAfter(selected, outcome, ctrl))
    ensures !ctrl && !outcome.HandleHit? ==> |SelectionAfter(selected, outcome, ctrl)| <= 1
    ensures outcome.EntityHitOutcome? ==>
      (outcome.id in SelectionAfter(selected, outcome, ctrl) <==> !ctrl || outcome.id !in selected)
    ensures outcome.EntityHitOutcome? && ctrl ==>
      forall x :: x != outcome.id ==> (x in SelectionAfter(selected, outcome, ctrl) <==> x in selected)
  {
    match outcome
    case HandleHit(_) =>
    case EntityHitOutcome(id) =>
      RemovedSpec(selected, id);
      AddedSpec(selected, id);
      AddedSpec([], id);
    case Miss =>
  }

  // ----- The pointer-down system over a batch of events -----

  datatype PointerState = PointerState(selected: seq<EntityId>, scaleStarts: seq<ScaleStart>)

  /** One event: resolve it against the selection as it stands, update the
      selection, and on a handle hit queue a scale start at the CSS point. */
  function PointerStep(st: PointerState, es: seq<Entity>, hbs: seq<HitboxEntry>, dpr: real, ev: PointerDown): PointerState
  {
    var o := ResolvePointer(st.selected, es, hbs, dpr, ev.x, ev.y);
    PointerState(SelectionAfter(st.selected, o, ev.ctrlKey),
                 if o.HandleHit? then st.scaleStarts + [ScaleStart(o.handleType, ev.x, ev.y)] else st.scaleStarts)
  }

  /** A click on a handle queues exactly one scale start, carrying the handle
      and the CSS point, and leaves the selection alone; any other click
      queues nothing and replaces, toggles, clears or keeps the selection. */
  lemma PointerStepSpec(st: PointerState, es: seq<Entity>, hbs: seq<HitboxEntry>, dpr: real, ev: PointerDown)
    ensures var r := PointerStep(st, es, hbs, dpr, ev);
      var h := HandleAt(st.selected, es, dpr, ev.x, ev.y);
      var f := FirstEntityHit(es, hbs, dpr, ToPhysical(ev.x, dpr), ToPhysical(ev.y, dpr));
      (h.Some? ==> r.selected == st.selected && r.scaleStarts == st.scaleStarts + [ScaleStart(h.value, ev.x, ev.y)])
      && (h.None? ==> r.scaleStarts == st.scaleStarts)
      && (h.None? && f.Some? && !ev.ctrlKey ==> r.selected == [f.value])
      && (h.None? && f.Some? && ev.ctrlKey ==> r.selected == Toggled(st.selected, f.value))
      && (h.None? && f.None? && !ev.ctrlKey ==> r.selected == [])
      && (h.None? && f.None? && ev.ctrlKey ==> r.selected == st.selected)
  {
    ResolvePointerSpec(st.selected, es, hbs, dpr, ev.x, ev.y);
  }

  /** The drained events, processed in arrival order. */
  function PointerDowns(st: PointerState, es: seq<Entity>, hbs: seq<HitboxEntry>, dpr: real, evs: seq<PointerDown>): PointerState
  {
    if evs == [] then st
    else PointerStep(PointerDowns(st, es, hbs, dpr, evs[..|evs| - 1]), es, hbs, dpr, evs[|evs| - 1])
  }

  /** A batch of pointer-downs keeps the selection free of duplicates, only
      appends to the scale-start queue, and appends at most one start per event. */
  lemma {:induction false} PointerDownsSpec(st: PointerState, es: seq<Entity>, hbs: seq<HitboxEntry>, dpr: real, evs: seq<PointerDown>)
    requires NoDuplicates(st.selected)
    ensures NoDuplicates(PointerDowns(st, es, hbs, dpr, evs).selected)
    ensures var r := PointerDowns(st, es, hbs, dpr, evs).scaleStarts;
      |st.scaleStarts| <= |r| <= |st.scaleStarts| + |evs| && r[..|st.scaleStarts|] == st.scaleStarts
  {
    if evs != [] {
      var prev := PointerDowns(st, es, hbs, dpr, evs[..|evs| - 1]);
      PointerDownsSpec(st, es, hbs, dpr, evs[..|evs| - 1]);
      var ev := evs[|evs| - 1];
      SelectionAfterSpec(prev.selected, ResolvePointer(prev.selected, es, hbs, dpr, ev.x, ev.y), ev.ctrlKey);
      var r := PointerDowns(st, es, hbs, dpr, evs).scaleStarts;
      assert r[..|prev.scaleStarts|] == prev.scaleStarts;
      assert r[..|st.scaleStarts|] == prev.scaleStarts[..|st.scaleStarts|];
    }
  }

  // ----- Gesture snapshots and the edits applied from them -----

  /** `(EntityId, Transform)`: a selected entity's transform when the gesture started. */
  datatype SnapshotEntry = SnapshotEntry(id: EntityId, transform: Transform)

  /** For every selected id found in the document, in selection order, the
      transform of the first entity carrying it. */
  function Snapshot(selected: seq<EntityId>, es: seq<Entity>): seq<SnapshotEntry>
  {
    if selected == [] then []
    else
      var init := Snapshot(selected[..|selected| - 1], es);
      match FindEntity(es, selected[|selected| - 1])
      case None => init
      case Some(e) => init + [SnapshotEntry(selected[|selected| - 1], e.transform)]
  }

  /** The snapshot holds exactly the selected ids present in the document,
      each with its current transform. */
  lemma {:induction false} SnapshotSpec(selected: seq<EntityId>, es: seq<Entity>)
    ensures |Snapshot(selected, es)| <= |selected|
    ensures forall k :: 0 <= k < |Snapshot(selected, es)| ==>
      Snapshot(selected, es)[k].id in selected
      && FindEntity(es, Snapshot(selected, es)[k].id).Some?
      && FindEntity(es, Snapshot(selected, es)[k].id).value.transform == Snapshot(selected, es)[k].transform
    ensures forall i :: 0 <= i < |selected| && FindEntity(es, selected[i]).Some? ==>
      exists k :: 0 <= k < |Snapshot(selected, es)| && Snapshot(selected, es)[k].id == selected[i]
  {
    if selected != [] {
      var n := |selected| - 1;
      var init := selected[..n];
      SnapshotSpec(init, es);
      FirstIndexOfSpec(es, selected[n]);
      assert forall i :: 0 <= i < n ==> selected[i] == init[i];
      var snap := Snapshot(selected, es);
      var prev := Snapshot(init, es);
      if FindEntity(es, selected[n]).Some? {
        assert snap[|prev|].id == selected[n];
      }
      forall i | 0 <= i < |selected| && FindEntity(es, selected[i]).Some?
        ensures exists k :: 0 <= k < |snap| && snap[k].id == selected[i]
      {
        if i < n {
          var k :| 0 <= k < |prev| && prev[k].id == init[i];
          assert snap[k] == prev[k];
        } else {
          assert snap[|prev|].id == selected[i];
        }
      }
      forall k | 0 <= k < |snap|
        ensures snap[k].id in selected && FindEntity(es, snap[k].id).Some?
        ensures FindEntity(es, snap[k].id).value.transform == snap[k].transform
      {
        if k < |prev| { assert snap[k] == prev[k]; }
      }
    }
  }

  /** What a gesture update does to one snapshot entity: a move sets the
      position from the snapshot plus the delta, a scale sets the scale factors
      from the snapshot times the factors; the other fields keep their current values. */
  datatype Edit = MoveTo(dx: real, dy: real) | ScaleBy(fx: real, fy: real)

  function ApplyEdit(edit: Edit, t0: Transform, cur: Transform): Transform
  {
    match edit
    case MoveTo(dx, dy) => cur.(x := t0.x + dx, y := t0.y + dy)
    case ScaleBy(fx, fy) => cur.(scaleX := t0.scaleX * fx, scaleY := t0.scaleY * fy)
  }

  predicate SameKind(a: Edit, b: Edit) { a.MoveTo? == b.MoveTo? }

  /** Edits of one kind overwrite each other: only the last one counts. */
  lemma EditOverwrites(a: Edit, b: Edit, t0: Transform, t1: Transform, cur: Transform)
    requires SameKind(a, b)
    ensures ApplyEdit(b, t0, ApplyEdit(a, t1, cur)) == ApplyEdit(b, t0, cur)
  {
  }

  /** The inner `for (id, transform, ..) in &mut entities { if id == .. { ..; break } }`:
      edits the first entity carrying the snapshot id, if any. */
  function EditFirst(es: seq<Entity>, entry: SnapshotEntry, edit: Edit): (r: seq<Entity>)
    ensures |r| == |es|
  {
    match FirstIndexOf(es, entry.id)
    case None => es
    case Some(k) => es[k := es[k].(transform := ApplyEdit(edit, entry.transform, es[k].transform))]
  }

  /** The outer loop over the snapshot, in snapshot order. */
  function ApplySnapshot(es: seq<Entity>, snap: seq<SnapshotEntry>, edit: Edit): (r: seq<Entity>)
    ensures |r| == |es|
  {
    if snap == [] then es
    else EditFirst(ApplySnapshot(es, snap[..|snap| - 1], edit), snap[|snap| - 1], edit)
  }

  /** The snapshot entry that lands last on entity k, if any. */
  function LastEntryFor(es: seq<Entity>, snap: seq<SnapshotEntry>, k: nat): Option<SnapshotEntry>
  {
    if snap == [] then None
    else if FirstIndexOf(es, snap[|snap| - 1].id) == Some(k) then Some(snap[|snap| - 1])
    else LastEntryFor(es, snap[..|snap| - 1], k)
  }

  /** Only ids decide where entries land. */
  lemma {:induction false} LastEntryForIdsOnly(es: seq<Entity>, fs: seq<Entity>, snap: seq<SnapshotEntry>, k: nat)
    requires |es| == |fs| && forall i :: 0 <= i < |es| ==> es[i].id == fs[i].id
    ensures LastEntryFor(es, snap, k) == LastEntryFor(fs, snap, k)
  {
    if snap != [] {
      FirstIndexOfIdsOnly(es, fs, snap[|snap| - 1].id);
      LastEntryForIdsOnly(es, fs, snap[..|snap| - 1], k);
    }
  }

  /** Applying a snapshot edit keeps the entity list, ids, styles and shapes,
      and sets each entity's transform from the last snapshot entry for it. */
  lemma {:induction false} ApplySnapshotAt(es: seq<Entity>, snap: seq<SnapshotEntry>, edit: Edit)
    ensures |ApplySnapshot(es, snap, edit)| == |es|
    ensures forall k :: 0 <= k < |es| ==>
      var r := ApplySnapshot(es, snap, edit)[k];
      r.id == es[k].id && r.style == es[k].style && r.shape == es[k].shape
      && r.transform == match LastEntryFor(es, snap, k)
           case None => es[k].transform
           case Some(entry) => ApplyEdit(edit, entry.transform, es[k].transform)
  {
    if snap != [] {
      var init := snap[..|snap| - 1];
      var entry := snap[|snap| - 1];
      ApplySnapshotAt(es, init, edit);
      var prev := ApplySnapshot(es, init, edit);
      FirstIndexOfIdsOnly(prev, es, entry.id);
      forall k | 0 <= k < |es|
        ensures ApplySnapshot(es, snap, edit)[k].transform == match LastEntryFor(es, snap, k)
           case None => es[k].transform
           case Some(e) => ApplyEdit(edit, e.transform, es[k].transform)
      {
        if FirstIndexOf(es, entry.id) == Some(k) {
          match LastEntryFor(es, init, k)
          case None =>
          case Some(e) => EditOverwrites(edit, edit, entry.transform, e.transform, es[k].transform);
        }
      }
    }
  }

  /** Gesture updates are absolute, not incremental: applying a second update
      of the same kind from the same snapshot gives what the second update
      alone gives, so repeated updates do not drift. */
  lemma GestureUpdatesAreAbsolute(es: seq<Entity>, snap: seq<SnapshotEntry>, a: Edit, b: Edit)
    requires SameKind(a, b)
    ensures ApplySnapshot(ApplySnapshot(es, snap, a), snap, b) == ApplySnapshot(es, snap, b)
  {
    var r1 := ApplySnapshot(es, snap, a);
    ApplySnapshotAt(es, snap, a);
    ApplySnapshotAt(r1, snap, b);
    ApplySnapshotAt(es, snap, b);
    var lhs := ApplySnapshot(r1, snap, b);
    var rhs := ApplySnapshot(es, snap, b);
    forall k | 0 <= k < |es|
      ensures lhs[k] == rhs[k]
    {
      LastEntryForIdsOnly(r1, es, snap, k);
      match LastEntryFor(es, snap, k)
      case None =>
      case Some(e) => EditOverwrites(a, b, e.transform, e.transform, es[k].transform);
    }
  }

  /** A move never changes a scale or rotation; a scale never changes a position. */
  lemma EditsTouchTheirOwnFields(es: seq<Entity>, snap: seq<SnapshotEntry>, edit: Edit, k: nat)
    requires k < |es|
    ensures var t := ApplySnapshot(es, snap, edit)[k].transform;
      t.rotation == es[k].transform.rotation
      && (edit.MoveTo? ==> t.scaleX == es[k].transform.scaleX && t.scaleY == es[k].transform.scaleY)
      && (edit.ScaleBy? ==> t.x == es[k].transform.x && t.y == es[k].transform.y)
  {
    ApplySnapshotAt(es, snap, edit);
  }

  // ----- Move updates -----

  /** The move-update loop over the drained events; deltas are converted
      from CSS to physical pixels. */
  function MoveUpdates(es: seq<Entity>, snap: seq<SnapshotEntry>, evs: seq<MoveUpdate>, dpr: real): seq<Entity>
  {
    if evs == [] then es
    else ApplySnapshot(MoveUpdates(es, snap, evs[..|evs| - 1], dpr), snap, MoveEdit(evs[|evs| - 1], dpr))
  }

  /** A move update's delta in physical pixels. */
  function MoveEdit(ev: MoveUpdate, dpr: real): Edit
  {
    MoveTo(ev.dx * dpr, ev.dy * dpr)
  }

  /** Only the last of a batch of move updates matters. */
  lemma {:induction false} MoveUpdatesLastWins(es: seq<Entity>, snap: seq<SnapshotEntry>, evs: seq<MoveUpdate>, dpr: real)
    requires evs != []
    ensures MoveUpdates(es, snap, evs, dpr) == ApplySnapshot(es, snap, MoveEdit(evs[|evs| - 1], dpr))
  {
    var init := evs[..|evs| - 1];
    var ev := evs[|evs| - 1];
    if init == [] {
      assert MoveUpdates(es, snap, init, dpr) == es;
    } else {
      MoveUpdatesLastWins(es, snap, init, dpr);
      var p := init[|init| - 1];
      GestureUpdatesAreAbsolute(es, snap, MoveEdit(p, dpr), MoveEdit(ev, dpr));
    }
  }

  // ----- Scale updates -----

  /** The divisor `extent.max(1.0)`; the infinite sentinel box gives 1. */
  function WidthDivisor(bounds: Option<BoundingBox>): (d: real)
    ensures d >= 1.0
  {
    match bounds
    case None => 1.0
    case Some(b) => Max(b.width, 1.0)
  }

  function HeightDivisor(bounds: Option<BoundingBox>): (d: real)
    ensures d >= 1.0
  {
    match bounds
    case None => 1.0
    case Some(b) => Max(b.height, 1.0)
  }

  datatype Factors = Factors(fx: real, fy: real)

  /** Growing factor `1 + d / extent` and shrinking factor `1 - d / extent`,
      each clamped below at 0.1. */
  function Grow(d: real, div: real): real
    requires div >= 1.0
  {
    Max(1.0 + d / div, 0.1)
  }

  function Shrink(d: real, div: real): real
    requires div >= 1.0
  {
    Max(1.0 - d / div, 0.1)
  }

  /** Per-axis factors from the handle: handles on the right or bottom grow
      with a positive delta, on the left or top shrink; edge handles leave the
      other axis at 1. */
  function ScaleFactors(h: HandleType, dx: real, dy: real, bounds: Option<BoundingBox>): Factors
  {
    var w := WidthDivisor(bounds);
    var ht := HeightDivisor(bounds);
    match h
    case TopLeft => Factors(Shrink(dx, w), Shrink(dy, ht))
    case TopRight => Factors(Grow(dx, w), Shrink(dy, ht))
    case BottomLeft => Factors(Shrink(dx, w), Grow(dy, ht))
    case BottomRight => Factors(Grow(dx, w), Grow(dy, ht))
    case Top => Factors(1.0, Shrink(dy, ht))
    case Bottom => Factors(1.0, Grow(dy, ht))
    case Left => Factors(Shrink(dx, w), 1.0)
    case Right => Factors(Grow(dx, w), 1.0)
  }

  predicate MovesRightEdge(h: HandleType) { h == TopRight || h == BottomRight || h == Right }
  predicate MovesLeftEdge(h: HandleType) { h == TopLeft || h == BottomLeft || h == Left }
  predicate MovesBottomEdge(h: HandleType) { h == BottomLeft || h == BottomRight || h == Bottom }
  predicate MovesTopEdge(h: HandleType) { h == TopLeft || h == TopRight || h == Top }

  lemma QuotientSign(d: real, div: real)
    requires div >= 1.0
    ensures d >= 0.0 ==> d / div >= 0.0
    ensures d <= 0.0 ==> d / div <= 0.0
  {
  }

  /** Factors never fall below 0.1, an axis no handle edge moves keeps factor 1,
      a zero delta scales nothing, and dragging a handle outwards never shrinks. */
  lemma ScaleFactorsSpec(h: HandleType, dx: real, dy: real, bounds: Option<BoundingBox>)
    ensures var f := ScaleFactors(h, dx, dy, bounds);
      f.fx >= 0.1 && f.fy >= 0.1
      && (h == Top || h == Bottom ==> f.fx == 1.0)
      && (h == Left || h == Right ==> f.fy == 1.0)
      && (dx == 0.0 && dy == 0.0 ==> f.fx == 1.0 && f.fy == 1.0)
      && (MovesRightEdge(h) && dx >= 0.0 ==> f.fx >= 1.0)
      && (MovesLeftEdge(h) && dx <= 0.0 ==> f.fx >= 1.0)
      && (MovesBottomEdge(h) && dy >= 0.0 ==> f.fy >= 1.0)
      && (MovesTopEdge(h) && dy <= 0.0 ==> f.fy >= 1.0)
  {
    QuotientSign(dx, WidthDivisor(bounds));
    QuotientSign(dy, HeightDivisor(bounds));
  }

  /** The scale-update loop over the drained events. */
  function ScaleUpdates(es: seq<Entity>, snap: seq<SnapshotEntry>, evs: seq<ScaleUpdate>, h: HandleType, bounds: Option<BoundingBox>): seq<Entity>
  {
    if evs == [] then es
    else
      var ev := evs[|evs| - 1];
      var f := ScaleFactors(h, ev.dx, ev.dy, bounds);
      ApplySnapshot(ScaleUpdates(es, snap, evs[..|evs| - 1], h, bounds), snap, ScaleBy(f.fx, f.fy))
  }

  /** Only the last of a batch of scale updates matters: factors always come
      from the initial transforms and the initial bounds. */
  lemma {:induction false} ScaleUpdatesLastWins(es: seq<Entity>, snap: seq<SnapshotEntry>, evs: seq<ScaleUpdate>, h: HandleType, bounds: Option<BoundingBox>)
    requires evs != []
    ensures var f := ScaleFactors(h, evs[|evs| - 1].dx, evs[|evs| - 1].dy, bounds);
      ScaleUpdates(es, snap, evs, h, bounds) == ApplySnapshot(es, snap, ScaleBy(f.fx, f.fy))
  {
    var init := evs[..|evs| - 1];
    var ev := evs[|evs| - 1];
    if init == [] {
      assert ScaleUpdates(es, snap, init, h, bounds) == es;
    } else {
      ScaleUpdatesLastWins(es, snap, init, h, bounds);
      var p := init[|init| - 1];
      var fp := ScaleFactors(h, p.dx, p.dy, bounds);
      var f := ScaleFactors(h, ev.dx, ev.dy, bounds);
      GestureUpdatesAreAbsolute(es, snap, ScaleBy(fp.fx, fp.fy), ScaleBy(f.fx, f.fy));
    }
  }

  /** The group bounds captured at scale start, in CSS pixels; `None` stands
      for the infinite sentinel box left when no selected id is found. */
  function InitialBounds(selected: seq<EntityId>, es: seq<Entity>): Option<BoundingBox>
  {
    match CombinedExtent(selected, es)
    case None => None
    case Some(e) => Some(ExtentBox(e))
  }
}
