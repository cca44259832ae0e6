/** The document: an ordered entity list, a monotonic id counter and a
    table of per-entity hitbox overrides. */
module Usecases {
  import opened Model
  import opened Hitboxes

  /** `EntityId(u64)`; ids are never reused within a document. */
  datatype EntityId = EntityId(value: nat)

  /** One `(EntityId, Transform, Style, Shape)` tuple of the entity list. */
  datatype Entity = Entity(id: EntityId, transform: Transform, style: Style, shape: Shape)

  /** One `(EntityId, Hitbox)` pair of the override table. */
  datatype HitboxEntry = HitboxEntry(id: EntityId, hitbox: Hitbox)

  /** Ids strictly increase along the list (so they are pairwise distinct). */
  ghost predicate IdsIncreasing(es: seq<Entity>)
  {
    forall i, j :: 0 <= i < j < |es| ==> es[i].id.value < es[j].id.value
  }

  ghost predicate UniqueIds(es: seq<Entity>)
  {
    forall i, j :: 0 <= i < |es| && 0 <= j < |es| && i != j ==> es[i].id != es[j].id
  }

  lemma IncreasingIsUnique(es: seq<Entity>)
    requires IdsIncreasing(es)
    ensures UniqueIds(es)
  {
  }

  /** `get_hitbox`: the first override entry for `id`, if any. */
  function GetHitbox(hbs: seq<HitboxEntry>, id: EntityId): Option<Hitbox>
  {
    if hbs == [] then None
    else if hbs[0].id == id then Some(hbs[0].hitbox)
    else GetHitbox(hbs[1..], id)
  }

  /** `retain(|(i, _)| *i != id)`: drops every entry for `id`, keeping the rest in order. */
  function RemoveKey(hbs: seq<HitboxEntry>, id: EntityId): seq<HitboxEntry>
  {
    if hbs == [] then []
    else if hbs[0].id == id then RemoveKey(hbs[1..], id)
    else [hbs[0]] + RemoveKey(hbs[1..], id)
  }

  /** Number of override entries for `id`. */
  function EntriesFor(hbs: seq<HitboxEntry>, id: EntityId): nat
  {
    if hbs == [] then 0
    else (if hbs[0].id == id then 1 else 0) + EntriesFor(hbs[1..], id)
  }

  lemma {:induction false} GetHitboxAppend(hbs: seq<HitboxEntry>, e: HitboxEntry, id: EntityId)
    ensures GetHitbox(hbs + [e], id) ==
      if GetHitbox(hbs, id).Some? then GetHitbox(hbs, id)
      else if e.id == id then Some(e.hitbox) else None
  {
    if hbs != [] {
      assert (hbs + [e])[1..] == hbs[1..] + [e];
      GetHitboxAppend(hbs[1..], e, id);
    }
  }

  lemma {:induction false} EntriesForAppend(hbs: seq<HitboxEntry>, e: HitboxEntry, id: EntityId)
    ensures EntriesFor(hbs + [e], id) == EntriesFor(hbs, id) + (if e.id == id then 1 else 0)
  {
    if hbs != [] {
      assert (hbs + [e])[1..] == hbs[1..] + [e];
      EntriesForAppend(hbs[1..], e, id);
    }
  }

  /** After `retain`, no entry for `id` is left and every other id keeps its lookup. */
  lemma {:induction false} RemoveKeyLookup(hbs: seq<HitboxEntry>, id: EntityId, other: EntityId)
    ensures GetHitbox(RemoveKey(hbs, id), id) == None
    ensures EntriesFor(RemoveKey(hbs, id), id) == 0
    ensures other != id ==> GetHitbox(RemoveKey(hbs, id), other) == GetHitbox(hbs, other)
    ensures other != id ==> EntriesFor(RemoveKey(hbs, id), other) == EntriesFor(hbs, other)
  {
    if hbs != [] {
      RemoveKeyLookup(hbs[1..], id, other);
      if hbs[0].id != id {
        assert ([hbs[0]] + RemoveKey(hbs[1..], id))[1..] == RemoveKey(hbs[1..], id);
      }
    }
  }

  /** `set_hitbox`: afterwards the lookup of `id` yields the new hitbox, there
      is exactly one entry for `id`, and every other id is unaffected. */
  lemma SetHitboxSpec(hbs: seq<HitboxEntry>, id: EntityId, h: Hitbox, other: EntityId)
    ensures GetHitbox(RemoveKey(hbs, id) + [HitboxEntry(id, h)], id) == Some(h)
    ensures EntriesFor(RemoveKey(hbs, id) + [HitboxEntry(id, h)], id) == 1
    ensures other != id ==>
      GetHitbox(RemoveKey(hbs, id) + [HitboxEntry(id, h)], other) == GetHitbox(hbs, other)
  {
    RemoveKeyLookup(hbs, id, other);
    GetHitboxAppend(RemoveKey(hbs, id), HitboxEntry(id, h), id);
    GetHitboxAppend(RemoveKey(hbs, id), HitboxEntry(id, h), other);
    EntriesForAppend(RemoveKey(hbs, id), HitboxEntry(id, h), id);
  }

  /** `usecases::Document`. */
  class Document {
    var entities: seq<Entity>
    var hitboxes: seq<HitboxEntry>
    var nextId: nat

    /** Ids are assigned from the counter, so every id is below it and the
        list is ordered by id. */
    ghost predicate Valid()
      reads this
    {
      nextId >= 1
      && IdsIncreasing(entities)
      && (forall i :: 0 <= i < |entities| ==> entities[i].id.value < nextId)
    }

    /** `Document::new`: empty, with the counter at 1. */
    constructor ()
      ensures Valid()
      ensures entities == [] && hitboxes == [] && nextId == 1
    {
      entities := [];
      hitboxes := [];
      nextId := 1;
    }

    /** `create_shape`: takes the next id, bumps the counter and appends one entity. */
    method CreateShape(transform: Transform, style: Style, shape: Shape) returns (id: EntityId)
      requires Valid()
      modifies this`entities, this`nextId
      ensures Valid()
      ensures id == EntityId(old(nextId)) && nextId == old(nextId) + 1
      ensures entities == old(entities) + [Entity(id, transform, style, shape)]
    {
      id := EntityId(nextId);
      nextId := nextId + 1;
      entities := entities + [Entity(id, transform, style, shape)];
    }

    /** `create_shape_with_hitbox`: as `CreateShape`, then appends an override
        entry without removing older entries for the same id. */
    method CreateShapeWithHitbox(transform: Transform, style: Style, shape: Shape, hitbox: Hitbox)
      returns (id: EntityId)
      requires Valid()
      modifies this
      ensures Valid()
      ensures id == EntityId(old(nextId)) && nextId == old(nextId) + 1
      ensures entities == old(entities) + [Entity(id, transform, style, shape)]
      ensures hitboxes == old(hitboxes) + [HitboxEntry(id, hitbox)]
      ensures GetHitbox(old(hitboxes), id) == None ==> GetHitbox(hitboxes, id) == Some(hitbox)
    {
      id := CreateShape(transform, style, shape);
      hitboxes := hitboxes + [HitboxEntry(id, hitbox)];
      GetHitboxAppend(old(hitboxes), HitboxEntry(id, hitbox), id);
    }

    /** `set_hitbox`: replace-or-insert, last write wins. */
    method SetHitbox(id: EntityId, hitbox: Hitbox)
      modifies this`hitboxes
      ensures hitboxes == RemoveKey(old(hitboxes), id) + [HitboxEntry(id, hitbox)]
      ensures GetHitbox(hitboxes, id) == Some(hitbox) && EntriesFor(hitboxes, id) == 1
      ensures forall other :: other != id ==> GetHitbox(hitboxes, other) == GetHitbox(old(hitboxes), other)
    {
      hitboxes := RemoveKey(hitboxes, id) + [HitboxEntry(id, hitbox)];
      SetHitboxSpec(old(hitboxes), id, hitbox, id);
      forall other | other != id
        ensures GetHitbox(hitboxes, other) == GetHitbox(old(hitboxes), other)
      {
        SetHitboxSpec(old(hitboxes), id, hitbox, other);
      }
    }

    /** `remove_hitbox`: drops every entry for `id`, others untouched. */
    method RemoveHitbox(id: EntityId)
      modifies this`hitboxes
      ensures hitboxes == RemoveKey(old(hitboxes), id)
      ensures GetHitbox(hitboxes, id) == None
      ensures forall other :: other != id ==> GetHitbox(hitboxes, other) == GetHitbox(old(hitboxes), other)
    {
      hitboxes := RemoveKey(hitboxes, id);
      RemoveKeyLookup(old(hitboxes), id, id);
      forall other | other != id
        ensures GetHitbox(hitboxes, other) == GetHitbox(old(hitboxes), other)
      {
        RemoveKeyLookup(old(hitboxes), id, other);
      }
    }
  }
}
