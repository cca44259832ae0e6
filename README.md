# Momentum editor engine: a Dafny model

Momentum is a 2D shape editor. Its engine has two parts, and this project models both.

The **core** (`crates/core/src/lib.rs`) holds:
- the geometry: transforms, styles, shapes, bounding boxes;
- the eight scale handles around a box;
- hitboxes and their hit tests;
- the `Document`, which owns the entities and their hitbox overrides.

The **ECS application** (`crates/ecs/src/lib.rs`, `MomentumEcsApp`) is driven by events. Each frame it:
1. drains the input queue;
2. resolves pointer-downs against the handles and then the entities;
3. updates the selection;
4. creates shapes;
5. runs the move and scale gestures against snapshots taken when each gesture started;
6. renders a frame through the render port.

Module layout:
- `Model` (model.dfy): the value types, bounding boxes and handle generation;
- `Hitboxes` (hitbox.dfy): the `Hitbox` variants, the ray-cast polygon test and `hit_test`;
- `Usecases` (document.dfy): the `Document` class;
- `Selections` (selection.dfy): the `Selection` resource as a class;
- `Events` (events.dfy): the event records and the `InputQueue` class;
- `Interaction` (interaction.dfy): the specification functions behind the systems. These cover combined selection bounds, handle and entity resolution, the selection rule, snapshots and edits, and scale factors.
- `Render` (render.dfy): one frame as the sequence of calls it makes on the render port;
- `Ecs` (ecs.dfy): the application as a class. Each system is a method with its own loops, proved against the functions in `Interaction` and `Render`.

Modelling choices:
- `f32` is modelled as `real`, and `u64`/`u32` as `nat`.
- A comparison `sqrt(d) <= r` becomes `r >= 0 && d <= r * r`.
- The accumulators that start at `INFINITY` become `Option<Extent>`. `None` means that no box was seen.
- One pass of the schedule is also written as a step on values. `World` holds every resource the systems change, and the ghost `EcsApp.State()` reads the class into one. Each method that runs several systems ends in `State() == Step(old(State()))` for its step function (`InputStep`, `MoveStep`, `ScaleStep`, `GestureStep`, `SystemsStep`).
- `ScaleState.initial_bounds` is an `Option<BoundingBox>`. `None` stands for the infinite sentinel box that the source stores when none of the selected ids is in the document. Its divisor, `max(extent, 1.0)`, is then 1.

## Model

| member | source | states |
|---|---|---|
| Model.DefaultTransform | crates/core/src/lib.rs:20-30 | the default transform sits at the origin, has no rotation and has unit scale |
| Model.DefaultStyle | crates/core/src/lib.rs:35-55 | the derived `Style::default()`: no fill or stroke, zero stroke width and opacity, butt caps, miter joins, no dashes; `CreatedStyle` builds the creation style on it |
| Model.BoundingBoxOf | crates/core/src/lib.rs:349-399 | `from_shape` for each variant, with no contract of its own: `ShapeBoundingBox` and `PolygonBoundingBox` are proved to compute it, and the four lemmas below say what each box covers |
| Model.PolygonExtent | crates/core/src/lib.rs:373-397 | every vertex lies within the min/max extent folded over a polygon's points |
| Model.PolygonExtentTight | crates/core/src/lib.rs:373-397 | each bound of the extent is attained by some vertex |
| Model.PolygonBoundingBox | crates/core/src/lib.rs:373-397 | the vertex loop computes the polygon's specification box `BoundingBoxOf` |
| Model.ShapeBoundingBox | crates/core/src/lib.rs:349-399 | the box computed for each shape variant equals the specification `BoundingBoxOf` |
| Model.RectBoxAtOrigin | crates/core/src/lib.rs:351-356 | a rectangle's box runs from the world image of its local corner (0, 0) to that of its far corner (w, h); at unit scale it is the rectangle itself |
| Model.EllipseBoxCentred | crates/core/src/lib.rs:357-362 | an ellipse's box is centred on the transform position |
| Model.LineBoxContainsEndpoints | crates/core/src/lib.rs:363-372 | both world endpoints of a line lie in its box |
| Model.PolygonBoxContainsVertices | crates/core/src/lib.rs:373-397 | every world vertex of a polygon lies in its box; an empty polygon gets the zero box |
| Model.ToU8 | crates/core/src/lib.rs:285-296 | each handle type maps to a code below 8, at its position in the fixed handle order |
| Model.ToU8Injective | crates/core/src/lib.rs:285-296 | distinct handle types get distinct codes |
| Model.ToU8Onto | crates/core/src/lib.rs:285-296 | every code 0..7 belongs to some handle type |
| Model.GenerateHandles | crates/core/src/lib.rs:401-415 | exactly eight handles, in the fixed order, each of the given size, each centred on its anchor of the box |
| Hitboxes.DefaultHitbox | crates/core/src/lib.rs:139-144 | the fallback hitbox follows the shape, with tolerance 8 for a line and 2 otherwise |
| Hitboxes.HitTestShape | crates/core/src/lib.rs:219-266 | `hit_test_shape`, with no contract of its own: `RectHitIffInBox`, `RayCastOutsideBand` and `DegenerateNeverHits` state its rectangle, polygon and zero-length-line cases |
| Hitboxes.HitTest | crates/core/src/lib.rs:168-216 | `Hitbox::hit_test`, with no contract of its own: `DegenerateNeverHits` and `MultipleHitsIffSomeChild` state its `None`, empty, polygon and `Multiple` cases |
| Hitboxes.ScaleHandleHitbox | crates/core/src/lib.rs:147-150 | a handle's hit circle is centred on the handle, with radius at least 12 and at least 0.75 of the visual size |
| Hitboxes.AccessibleRect | crates/core/src/lib.rs:153-165 | the accessible rectangle is at least the minimum size, never smaller than the original, and centred on it |
| Hitboxes.PolygonContains | crates/core/src/lib.rs:191-210 | the even-odd ray-cast loop returns the parity given by the specification `RayCast` |
| Hitboxes.DegenerateNeverHits | crates/core/src/lib.rs:191-246 | `None`, an empty `Multiple`, a polygon with fewer than three points and a zero-length line are never hit |
| Hitboxes.MultipleHitsIffSomeChild | crates/core/src/lib.rs:211-213 | a `Multiple` hitbox with one more child is hit exactly when the others or the new child are hit, so (with the empty case) exactly when some child is hit |
| Hitboxes.ParityOutsideBand | crates/core/src/lib.rs:191-210 | no edge is crossed by a ray above or below all vertices |
| Hitboxes.RayCastOutsideBand | crates/core/src/lib.rs:191-210 | a point above or below every vertex is outside the polygon |
| Hitboxes.RayCast | crates/core/src/lib.rs:191-210 | the even-odd crossing parity over every edge; `PolygonContains` is proved to compute it and `RayCastOutsideBand` states that a point outside the vertical band is outside |
| Hitboxes.RectHitIffInBox | crates/core/src/lib.rs:173-181 | a rectangle hitbox is hit exactly when the point is in its world box |
| Hitboxes.AccessibleRectCovers | crates/core/src/lib.rs:153-165 | at unit scale, the accessible rectangle contains every point of the original rectangle |
| Usecases.IncreasingIsUnique | crates/core/src/lib.rs:506-528 | ids handed out in increasing order are unique |
| Usecases.GetHitbox | crates/core/src/lib.rs:542-546 | `get_hitbox`, the first entry for the id; `GetHitboxAppend`, `RemoveKeyLookup` and `SetHitboxSpec` state how it answers after each table update |
| Usecases.RemoveKey | crates/core/src/lib.rs:548-550 | the `retain` filter; `RemoveKeyLookup` states that the id is gone and every other id keeps its lookup |
| Usecases.GetHitboxAppend | crates/core/src/lib.rs:536-546 | appending an entry makes it the one found for its id and leaves other ids alone |
| Usecases.EntriesForAppend | crates/core/src/lib.rs:536-546 | appending an entry adds one entry for its id and none for the others |
| Usecases.RemoveKeyLookup | crates/core/src/lib.rs:548-550 | after removal an id has no hitbox, and other ids keep theirs |
| Usecases.SetHitboxSpec | crates/core/src/lib.rs:536-546 | setting a hitbox replaces any previous one: the id then has exactly one entry, the new hitbox |
| Usecases.Document.constructor | crates/core/src/lib.rs:515-521 | a new document is empty and its next id is 1 |
| Usecases.Document.CreateShape | crates/core/src/lib.rs:523-528 | appends one entity with the next id and the given parts, advances the counter and returns the id |
| Usecases.Document.CreateShapeWithHitbox | crates/core/src/lib.rs:530-534 | creates the shape and appends its hitbox entry without removing older ones; when the table held no entry for the new id, the new entry is the hitbox found for it |
| Usecases.Document.SetHitbox | crates/core/src/lib.rs:536-540 | the table afterwards maps the id to the new hitbox only |
| Usecases.Document.RemoveHitbox | crates/core/src/lib.rs:548-550 | the table afterwards has no entry for the id and keeps every other entry |
| Selections.Added | crates/ecs/src/lib.rs:131-135 | `select` on the id list; `AddedSpec` states its membership and that it adds no duplicate |
| Selections.Removed | crates/ecs/src/lib.rs:137-139 | `deselect` on the id list; `RemovedSpec` and `RemovedConcat` state that exactly this id is dropped and the rest keep their order |
| Selections.Toggled | crates/ecs/src/lib.rs:145-151 | `toggle` on the id list; `ToggleTwice` states that toggling twice restores the ids |
| Selections.AddedSpec | crates/ecs/src/lib.rs:131-135 | selecting adds the id once, keeps everything else and keeps the list free of duplicates |
| Selections.RemovedSpec | crates/ecs/src/lib.rs:137-139 | after deselecting, the selection holds exactly the old ids other than this one, is no longer, is unchanged if the id was absent, and stays free of duplicates |
| Selections.RemovedConcat | crates/ecs/src/lib.rs:137-139 | deselecting filters element by element: a concatenation is filtered part by part, and a single id survives exactly when it is not the one removed, so the kept ids stay in their order |
| Selections.ToggleTwice | crates/ecs/src/lib.rs:145-151 | toggling an id twice gives back the same set of ids, and the very same list when the id was not selected |
| Selections.Selection.constructor | crates/ecs/src/lib.rs:105-108 | a new selection is empty |
| Selections.Selection.IsSelected | crates/ecs/src/lib.rs:127-129 | the scan returns whether the id is in the selection |
| Selections.Selection.Select | crates/ecs/src/lib.rs:131-135 | the selection becomes `Added(old, id)` |
| Selections.Selection.Deselect | crates/ecs/src/lib.rs:137-139 | the selection becomes `Removed(old, id)` |
| Selections.Selection.Clear | crates/ecs/src/lib.rs:141-143 | the selection becomes empty |
| Selections.Selection.Toggle | crates/ecs/src/lib.rs:145-151 | the selection becomes `Toggled(old, id)` |
| Events.InputQueue.constructor | crates/ecs/src/lib.rs:84-95 | all ten event queues start empty |
| Interaction.FirstIndexOf | crates/ecs/src/lib.rs:187-203 | a found index is in range and holds the id |
| Interaction.FirstIndexOfSpec | crates/ecs/src/lib.rs:187-203 | absent exactly when no entity has the id; otherwise the first such index |
| Interaction.FirstIndexOfIdsOnly | crates/ecs/src/lib.rs:498-506 | lookups depend only on the entities' ids |
| Interaction.FindEntity | crates/ecs/src/lib.rs:187-203 | the entity at `FirstIndexOf`; `Ecs.EntityById` is proved to compute it |
| Interaction.CombinedExtent | crates/ecs/src/lib.rs:187-203 | the min/max fold over the selected boxes; `CombinedExtentIsUnion` states that it is their exact union |
| Interaction.CombinedExtentIsUnion | crates/ecs/src/lib.rs:187-203 | the combined extent is absent exactly when no selected id is found; otherwise it contains every found box and each bound is attained |
| Interaction.CombinedExtentLowerSides | crates/ecs/src/lib.rs:187-203 | (helper for `CombinedExtentIsUnion`) the absence case, containment, and the minimum sides attained |
| Interaction.CombinedExtentUpperSides | crates/ecs/src/lib.rs:187-203 | (helper for `CombinedExtentIsUnion`) the maximum sides attained |
| Interaction.PhysicalBox | crates/ecs/src/lib.rs:205-213 | the combined box converted to physical pixels; `HandleCallsSpec` and `HandleAtPoint` use it |
| Interaction.HandleAt | crates/ecs/src/lib.rs:184-240 | the handle check of the pointer-down system; `HandleAtPoint` is proved to compute it, and `NoHandleWithoutSelectedBox`, `CornerClickGrabsHandle` and `FirstHandleHitSpec` state what it finds |
| Interaction.HandleHitRadius | crates/ecs/src/lib.rs:215-219 | the hit radius is the larger of `0.75·size` and `12·dpr` |
| Interaction.FirstHandleHit | crates/ecs/src/lib.rs:221-240 | the handle loop's result; `FirstHandleHitSpec` states it is the first handle within the radius |
| Interaction.FirstHandleHitSpec | crates/ecs/src/lib.rs:221-240 | a handle is reported exactly when one is within the radius, and it is the first such handle in generation order |
| Interaction.NoHandleWithoutSelectedBox | crates/ecs/src/lib.rs:184-205 | with no selected entity in the document no handle is hit |
| Interaction.CornerClickGrabsHandle | crates/ecs/src/lib.rs:184-240 | clicking the top-left corner of the combined box at dpr 1 grabs the top-left handle |
| Interaction.CentreWithinRadius | crates/ecs/src/lib.rs:221-240 | (helper for `CornerClickGrabsHandle`) a handle's own centre is within any non-negative hit radius |
| Interaction.HitTestEntity | crates/ecs/src/lib.rs:155-163 | `hit_test_entity`; `HitTestEntityOverride` states which hitbox decides |
| Interaction.HitTestEntityOverride | crates/ecs/src/lib.rs:155-163 | after `set_hitbox` the override alone decides the entity's hit test; after `remove_hitbox` the shape-derived default does |
| Interaction.PhysicalTransform | crates/ecs/src/lib.rs:249-255 | the pointer-down system scales position and scale factors by dpr; `PointerHitAreaGrowsWithDprSquared` shows the effect |
| Interaction.PhysicalShape | crates/ecs/src/lib.rs:257-277 | every shape extent multiplied by dpr, variant kept; `EntityCallsSpec` and `PointerHitAreaGrowsWithDprSquared` use it |
| Interaction.EntityHit | crates/ecs/src/lib.rs:249-283 | the entity loop's test for one entity, `hit_test_entity` on the physical transform and shape; `FirstEntityHitSpec` states the loop over it |
| Interaction.FirstEntityHit | crates/ecs/src/lib.rs:243-285 | the entity loop's result; `FirstEntityHitSpec` states it is the first hit entity |
| Interaction.FirstEntityHitSpec | crates/ecs/src/lib.rs:243-285 | an entity is reported exactly when one is hit, and it is the first hit entity in document order |
| Interaction.PointerHitAreaGrowsWithDprSquared | crates/ecs/src/lib.rs:243-285 | at dpr 2 an entity is hit at a point outside its own box, because the extents are scaled twice |
| Interaction.ResolvePointer | crates/ecs/src/lib.rs:184-285 | the handle check, then the entity loop; `ResolvePointerSpec` states the priority |
| Interaction.ResolvePointerSpec | crates/ecs/src/lib.rs:184-285 | a handle hit takes priority; an entity is reported only when no handle is hit; a miss means neither |
| Interaction.SelectionAfter | crates/ecs/src/lib.rs:287-307 | the selection rule for one resolved click; `SelectionAfterSpec` states it |
| Interaction.SelectionAfterSpec | crates/ecs/src/lib.rs:287-307 | the selection stays free of duplicates; a click without Ctrl leaves at most one id; a hit entity ends up selected unless Ctrl was held and it was already selected; with Ctrl every other id is kept |
| Interaction.PointerStep | crates/ecs/src/lib.rs:177-308 | one click resolved against the current selection; `PointerStepSpec` states its effect and `PointerDownOne` is proved to compute it |
| Interaction.PointerStepSpec | crates/ecs/src/lib.rs:165-310 | a handle click queues one scale start with the click position and keeps the selection; otherwise plain and Ctrl clicks select, toggle, clear or keep as the source does |
| Interaction.PointerDowns | crates/ecs/src/lib.rs:165-310 | the drained clicks in arrival order; `PointerDownsSpec` states what a batch keeps and `PointerDownSystem` is proved to compute it |
| Interaction.PointerDownsSpec | crates/ecs/src/lib.rs:165-310 | a batch of clicks keeps the selection free of duplicates and only appends, at most one per click, to the scale-start queue |
| Interaction.Snapshot | crates/ecs/src/lib.rs:366-375 | the transforms recorded at gesture start; `SnapshotSpec` states exactly what is recorded and `SnapshotOf` is proved to compute it |
| Interaction.SnapshotSpec | crates/ecs/src/lib.rs:358-380 | the snapshot holds exactly the selected ids present in the document, each with its current transform |
| Interaction.EditOverwrites | crates/ecs/src/lib.rs:382-405 | two edits of one kind from one snapshot: only the last counts |
| Interaction.EditFirst | crates/ecs/src/lib.rs:398-404 | editing one entity keeps the length of the entity list |
| Interaction.ApplySnapshot | crates/ecs/src/lib.rs:396-405 | applying a snapshot keeps the length of the entity list |
| Interaction.LastEntryForIdsOnly | crates/ecs/src/lib.rs:396-405 | where snapshot entries land depends only on ids |
| Interaction.ApplySnapshotAt | crates/ecs/src/lib.rs:396-405 | each entity keeps its id, style and shape; its transform is the edit of the last snapshot entry for it, or is unchanged if there is none |
| Interaction.GestureUpdatesAreAbsolute | crates/ecs/src/lib.rs:382-405 | a second update from the same snapshot replaces the first rather than adding to it |
| Interaction.EditsTouchTheirOwnFields | crates/ecs/src/lib.rs:396-405 | no edit changes rotation; a move keeps the scale and a scale keeps the position |
| Interaction.MoveEdit | crates/ecs/src/lib.rs:388-392 | a move update as a move to the snapshot position plus the delta in physical pixels; `EditsTouchTheirOwnFields` and `MoveUpdatesLastWins` state its effect |
| Interaction.MoveUpdates | crates/ecs/src/lib.rs:382-405 | the move-update loop over the drained events; `MoveUpdatesLastWins` states that only the last event counts |
| Interaction.MoveUpdatesLastWins | crates/ecs/src/lib.rs:382-405 | in a batch of move updates only the last event decides the positions |
| Interaction.WidthDivisor | crates/ecs/src/lib.rs:470-472 | the width divisor is at least 1 |
| Interaction.HeightDivisor | crates/ecs/src/lib.rs:470-472 | the height divisor is at least 1 |
| Interaction.QuotientSign | crates/ecs/src/lib.rs:474-495 | (helper for `ScaleFactorsSpec`) dividing by a positive divisor keeps the sign of the delta |
| Interaction.ScaleFactors | crates/ecs/src/lib.rs:470-495 | the per-handle factor match; `ScaleFactorsSpec` states its bounds and which axes each handle moves |
| Interaction.ScaleFactorsSpec | crates/ecs/src/lib.rs:470-495 | factors never fall below 0.1; an axis whose edges the handle does not move keeps factor 1; a zero drag scales nothing; dragging outwards never shrinks |
| Interaction.ScaleUpdatesLastWins | crates/ecs/src/lib.rs:460-508 | in a batch of scale updates only the last event decides the scales |
| Interaction.ScaleUpdates | crates/ecs/src/lib.rs:460-508 | the scale-update loop over the drained events; `ScaleUpdatesLastWins` states that only the last event counts |
| Interaction.InitialBounds | crates/ecs/src/lib.rs:428-453 | the group bounds captured at scale start: the box of `CombinedExtent`, whose coverage `CombinedExtentIsUnion` states; `CaptureGroup` is proved to compute it |
| Render.RenderStyle | crates/ecs/src/lib.rs:776-790 | the style scaling and selection highlight; `RenderStyleSpec` states its effect |
| Render.RenderTransform | crates/ecs/src/lib.rs:750-753 | the render position in physical pixels, scale untouched; `EntityCallsSpec` states each draw uses it |
| Render.ScaleDash | crates/ecs/src/lib.rs:780-783 | the dash pattern in physical pixels; `ScaleDashSpec` states it |
| Render.RenderStyleSpec | crates/ecs/src/lib.rs:776-790 | selected entities get the highlight colour and a stroke of at least 3 CSS pixels; the others keep their colour; every dash length and a non-empty pattern's offset are multiplied by dpr; fill, opacity, caps and joins are untouched |
| Render.ScaleDashSpec | crates/ecs/src/lib.rs:780-783 | (helper for `RenderStyleSpec`) scaling a dash pattern keeps its length and multiplies each length by dpr, in order |
| Render.EntityCalls | crates/ecs/src/lib.rs:749-794 | the entity draws of a frame; `EntityCallsSpec` states them and `DrawEntities` is proved to emit them |
| Render.EntityCallsSpec | crates/ecs/src/lib.rs:749-794 | one draw call per entity in document order, each with its physical transform, shape and style |
| Render.HandleDrawsSpec | crates/ecs/src/lib.rs:797-843 | one handle call per handle, in order |
| Render.HandleCalls | crates/ecs/src/lib.rs:797-843 | the handle draws of a frame; `HandleCallsSpec` states when they appear and `DrawHandles` is proved to emit them |
| Render.HandleCallsSpec | crates/ecs/src/lib.rs:797-843 | eight handle calls in the fixed order exactly when no move is in progress and some selected entity exists; none otherwise |
| Render.FrameCalls | crates/ecs/src/lib.rs:734-846 | the calls of one frame; `FrameCallsSpec` states their layout and `RenderSystem` appends them |
| Render.FrameCallsSpec | crates/ecs/src/lib.rs:734-846 | a frame begins at the canvas size, draws the entities before the handles, and ends |
| Render.HandleCallsAreHandles | crates/ecs/src/lib.rs:797-843 | (helper for `FrameCallsSpec`) every handle call is a handle draw |
| Ecs.MoveState.constructor | crates/ecs/src/lib.rs:112-115 | no move in progress and no snapshot |
| Ecs.ScaleState.constructor | crates/ecs/src/lib.rs:119-124 | no scale in progress, no handle, no snapshot, zero box |
| Ecs.CreatedTransform | crates/ecs/src/lib.rs:322-323 | created shapes sit at the event position with the default rotation and scale; `RectRequestsSpec` states it |
| Ecs.CreatedStyle | crates/ecs/src/lib.rs:324 | the creation style: a dark 2 px stroke at full opacity, otherwise the default; `NewEntitiesSpec` states that every created entity carries it |
| Ecs.NewEntities | crates/ecs/src/lib.rs:314-356 | the entities `create_shape` appends; `NewEntitiesSpec` states their ids and contents |
| Ecs.NewEntitiesSpec | crates/ecs/src/lib.rs:314-356 | created entities get consecutive ids from the counter, in event order |
| Ecs.RectRequests | crates/ecs/src/lib.rs:316-328 | the rectangle events as shape requests; `RectRequestsSpec` states them |
| Ecs.EllipseRequests | crates/ecs/src/lib.rs:330-342 | the ellipse events as shape requests; `EllipseRequestsSpec` states them |
| Ecs.LineRequests | crates/ecs/src/lib.rs:344-356 | the line events as shape requests; `LineRequestsSpec` states them |
| Ecs.RectRequestsSpec | crates/ecs/src/lib.rs:316-328 | each rectangle event yields a rectangle at its position with the creation style |
| Ecs.EllipseRequestsSpec | crates/ecs/src/lib.rs:330-342 | each ellipse event yields an ellipse at its centre with its radii |
| Ecs.LineRequestsSpec | crates/ecs/src/lib.rs:344-356 | each line event yields a line from its first point whose world end is its second point |
| Ecs.EntitiesAfterCreates | crates/ecs/src/lib.rs:316-356 | the entities after the three create systems; `EntitiesAfterCreatesSpec` states its shape |
| Ecs.EntitiesAfterCreatesSpec | crates/ecs/src/lib.rs:316-356 | creation appends: the old entities stay in front unchanged, and one new entity per event follows, with ids consecutive from the counter across all three systems |
| Ecs.MoveAfterStart | crates/ecs/src/lib.rs:358-380 | the move state after the move-start system; `MoveStartSystem` is proved to reach it |
| Ecs.EntitiesAfterMoveUpdates | crates/ecs/src/lib.rs:382-405 | the entities after the move-update system; `MoveUpdateSystem` is proved to reach it |
| Ecs.MoveAfterEnd | crates/ecs/src/lib.rs:407-416 | the move state after the move-end system |
| Ecs.ScaleAfterStart | crates/ecs/src/lib.rs:418-458 | the scale state after the scale-start system; `ScaleStartSystem` is proved to reach it |
| Ecs.EntitiesAfterScaleUpdates | crates/ecs/src/lib.rs:460-508 | the entities after the scale-update system; `ScaleUpdateSystem` is proved to reach it |
| Ecs.ScaleAfterEnd | crates/ecs/src/lib.rs:510-520 | the scale state after the scale-end system, whose initial bounds stay as they were |
| Ecs.GesturesOnlyMoveAndScale | crates/ecs/src/lib.rs:382-508 | the move and scale updates keep the entity count and every entity's id, style and shape |
| Ecs.InputStep | crates/ecs/src/lib.rs:540-545 | tick, the clicks, then the creations, as a step on the whole state |
| Ecs.MoveStep | crates/ecs/src/lib.rs:546-548 | move start, update and end as a step on the whole state |
| Ecs.ScaleStep | crates/ecs/src/lib.rs:549-551 | scale start, update and end as a step on the whole state |
| Ecs.GestureStep | crates/ecs/src/lib.rs:546-551 | the move gesture, then the scale gesture |
| Ecs.SystemsStep | crates/ecs/src/lib.rs:540-551 | every system but rendering, in registration order |
| Ecs.SystemsStepSpec | crates/ecs/src/lib.rs:540-553 | after one pass every queue but the two update queues is empty; one id is used per create event; the old entities keep their place, id, style and shape; the new ones follow with consecutive ids |
| Ecs.IndexOfId | crates/ecs/src/lib.rs:396-404 | the id scan returns `FirstIndexOf`: the first index holding the id, or none |
| Ecs.EntityById | crates/ecs/src/lib.rs:187-203 | the lookup loop returns the first entity with the id |
| Ecs.CombinedBounds | crates/ecs/src/lib.rs:187-203 | the accumulation loop computes the combined extent of the selection |
| Ecs.HandleUnder | crates/ecs/src/lib.rs:221-240 | the handle loop returns the first handle within the radius |
| Ecs.HandleAtPoint | crates/ecs/src/lib.rs:184-240 | the handle check returns the handle under the point in physical pixels |
| Ecs.EntityUnder | crates/ecs/src/lib.rs:243-285 | the entity loop returns the first entity hit |
| Ecs.SnapshotOf | crates/ecs/src/lib.rs:366-375 | the snapshot loop records the selected entities' transforms |
| Ecs.CaptureGroup | crates/ecs/src/lib.rs:428-453 | the scale-start loop records the snapshot and the group's extent together |
| Ecs.ApplyToEntities | crates/ecs/src/lib.rs:396-405 | the nested update loops compute `ApplySnapshot` and keep every id |
| Ecs.DrawEntities | crates/ecs/src/lib.rs:749-794 | the render loop emits `EntityCalls` |
| Ecs.DrawHandles | crates/ecs/src/lib.rs:797-843 | the handle part of render emits `HandleCalls` |
| Ecs.EcsApp.constructor | crates/ecs/src/lib.rs:527-557 | the whole state is the empty world: frame 0, no selection, no entities, next id 1, no gesture with its snapshots empty, no handle, the zero box and every queue empty; no hitbox overrides, a 0 x 0 canvas at dpr 1, no renderer |
| Ecs.EcsApp.DetectHandleClick | crates/ecs/src/lib.rs:586-652 | returns the code of the handle under the point, which is below 8 |
| Ecs.EcsApp.Tick | crates/ecs/src/lib.rs:36-38 | the frame counter goes up by one |
| Ecs.EcsApp.PointerDownSystem | crates/ecs/src/lib.rs:165-310 | drains the clicks; the selection and scale-start queue become `PointerDowns` of the old ones |
| Ecs.EcsApp.PointerDownOne | crates/ecs/src/lib.rs:177-308 | one click: the selection and scale-start queue become `PointerStep` of the old ones |
| Ecs.EcsApp.CreateAll | crates/core/src/lib.rs:523-528 | appends `NewEntities` for the requests and advances the counter by their number |
| Ecs.EcsApp.CreateRectSystem | crates/ecs/src/lib.rs:316-328 | drains the queue and creates one rectangle per event |
| Ecs.EcsApp.CreateEllipseSystem | crates/ecs/src/lib.rs:330-342 | drains the queue and creates one ellipse per event |
| Ecs.EcsApp.CreateLineSystem | crates/ecs/src/lib.rs:344-356 | drains the queue and creates one line per event |
| Ecs.EcsApp.MoveStartSystem | crates/ecs/src/lib.rs:358-380 | with events and a selection, starts the move with the snapshot; otherwise the move state is unchanged |
| Ecs.EcsApp.MoveUpdateSystem | crates/ecs/src/lib.rs:382-405 | outside a move the events stay queued and nothing changes; during a move the entities become `MoveUpdates` of the snapshot |
| Ecs.EcsApp.MoveEndSystem | crates/ecs/src/lib.rs:407-416 | an end event stops the move and drops the snapshot |
| Ecs.EcsApp.ScaleStartSystem | crates/ecs/src/lib.rs:418-458 | with events and a selection, starts the scale with the last event's handle, the snapshot and the group bounds |
| Ecs.EcsApp.ScaleUpdateSystem | crates/ecs/src/lib.rs:460-508 | outside a scale the events stay queued; during one the entities become `ScaleUpdates` of the snapshot |
| Ecs.EcsApp.ScaleEndSystem | crates/ecs/src/lib.rs:510-520 | an end event stops the scale and drops the handle and snapshot |
| Ecs.EcsApp.RenderSystem | crates/ecs/src/lib.rs:734-846 | with a renderer, the trace grows by `FrameCalls` of the current state; without one nothing happens |
| Ecs.EcsApp.RunInputSystems | crates/ecs/src/lib.rs:540-545 | the state becomes `InputStep` of the old state |
| Ecs.EcsApp.RunCreateSystems | crates/ecs/src/lib.rs:543-545 | drains the three create queues; the entities become `EntitiesAfterCreates` and the counter advances by the number of events |
| Ecs.EcsApp.RunMoveSystems | crates/ecs/src/lib.rs:546-548 | the state becomes `MoveStep` of the old state |
| Ecs.EcsApp.RunScaleSystems | crates/ecs/src/lib.rs:549-551 | the state becomes `ScaleStep` of the old state |
| Ecs.EcsApp.RunGestureSystems | crates/ecs/src/lib.rs:546-551 | the state becomes `GestureStep` of the old state |
| Ecs.EcsApp.RunSystems | crates/ecs/src/lib.rs:540-551 | the state becomes `SystemsStep` of the old state |
| Ecs.EcsApp.RunFrame | crates/ecs/src/lib.rs:566 | the state becomes `SystemsStep` of the old state; the trace grows by `FrameCalls` of the new state exactly when a renderer is attached |
| Ecs.EcsApp.SendPointerDown | crates/ecs/src/lib.rs:568-571 | queues an unmodified click |
| Ecs.EcsApp.SendPointerDownWithModifiers | crates/ecs/src/lib.rs:573-584 | queues the click and reports the handle code under it, computed before the frame runs |
| Ecs.EcsApp.SendCreateRect | crates/ecs/src/lib.rs:653-656 | queues one rectangle request |
| Ecs.EcsApp.SendCreateEllipse | crates/ecs/src/lib.rs:658-661 | queues one ellipse request |
| Ecs.EcsApp.SendCreateLine | crates/ecs/src/lib.rs:663-666 | queues one line request |
| Ecs.EcsApp.SendMoveStart | crates/ecs/src/lib.rs:668-671 | queues a move start |
| Ecs.EcsApp.SendMoveUpdate | crates/ecs/src/lib.rs:673-676 | queues a move update |
| Ecs.EcsApp.SendMoveEnd | crates/ecs/src/lib.rs:678-681 | queues a move end |
| Ecs.EcsApp.SendScaleStart | crates/ecs/src/lib.rs:683-686 | queues a scale start with its handle |
| Ecs.EcsApp.SendScaleUpdate | crates/ecs/src/lib.rs:688-691 | queues a scale update |
| Ecs.EcsApp.SendScaleEnd | crates/ecs/src/lib.rs:693-696 | queues a scale end |
| Ecs.EcsApp.AttachRenderer | crates/ecs/src/lib.rs:710-713 | a renderer is attached afterwards |
| Ecs.EcsApp.SetCanvasSize | crates/ecs/src/lib.rs:714-718 | a zero dimension is clamped to 1 |
| Ecs.EcsApp.SetCanvasDpr | crates/ecs/src/lib.rs:719-721 | the device pixel ratio is clamped to at least 0.5 |
| Ecs.EcsApp.SelectedEntities | crates/ecs/src/lib.rs:698-700 | `get_selected_entities`, a plain read of the selection resource |
| Ecs.EcsApp.IsMoving | crates/ecs/src/lib.rs:702-704 | `is_moving`, a plain read of the move state |
| Ecs.EcsApp.IsScaling | crates/ecs/src/lib.rs:706-708 | `is_scaling`, a plain read of the scale state |
| Ecs.EcsApp.Frames | crates/ecs/src/lib.rs:567 | `frames`, a plain read of the frame counter, which `Tick` and `SystemsStepSpec` advance by one per frame |

## Left out

- The render port, storage port and serialisation are external. A frame is modelled as the list of calls it makes, and renderer error results are ignored, as the source ignores them.
- The web bindings, the UI layer and the design system are not part of this model.
- The `StoragePort`, `Project`, text, path and image types are declared in the core but not used by the interaction engine, so they are not modelled.
- Integer widths: `u64` ids and `u32` canvas sizes are unbounded `nat`s. The id counter never wraps.
- `f32` rounding, NaN and infinities are not modelled. An ellipse with a zero world radius divides by zero in the source; that gives infinity or NaN there, so the comparison fails. The model writes it out as a miss.
- System scheduling: bevy does not chain the systems registered together. The model runs them in the order they are listed.
- Hitboxes.AccessibleRectCovers: stated at unit scale only. At scales below one half the unscaled offset makes the claim false.
- Hitboxes.HitTestShape: the ellipse-interior and line-endpoint cases have no lemmas, because they need nonlinear real arithmetic the solver does not settle. The functions themselves follow the source.
- Ecs.EcsApp.SendPointerDownWithModifiers: `entity_selected` is always `false` in the source, and the model returns it so. `shift_key` is carried but never read.
- The pointer-down hit test scales both the transform's scale and the shape's extents by the device pixel ratio. This grows the hit area by the ratio squared. It is kept as written and illustrated by `Interaction.PointerHitAreaGrowsWithDprSquared`, not corrected.
- The getters (`get_selected_entities`, `is_moving`, `is_scaling`, `frames`, `document`) are plain field reads with no contract.
- Logging is left out.
