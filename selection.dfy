/** The selection resource: an ordered list of selected entity ids. */
module Selections {
  import opened Usecases

  ghost predicate NoDuplicates(s: seq<EntityId>)
  {
    forall i, j :: 0 <= i < j < |s| ==> s[i] != s[j]
  }

  /** `select`: append unless already present. */
  function Added(s: seq<EntityId>, id: EntityId): seq<EntityId>
  {
    if id in s then s else s + [id]
  }

  /** `retain(|&x| x != id)`: every occurrence of `id` dropped, order kept. */
  function Removed(s: seq<EntityId>, id: EntityId): seq<EntityId>
  {
    if s == [] then []
    else if s[|s| - 1] == id then Removed(s[..|s| - 1], id)
    else Removed(s[..|s| - 1], id) + [s[|s| - 1]]
  }

  /** `toggle`: deselect when selected, select otherwise. */
  function Toggled(s: seq<EntityId>, id: EntityId): seq<EntityId>
  {
    if id in s then Removed(s, id) else Added(s, id)
  }

  /** Selecting is idempotent and keeps the list free of duplicates. */
  lemma AddedSpec(s: seq<EntityId>, id: EntityId)
    requires NoDuplicates(s)
    ensures NoDuplicates(Added(s, id))
    ensures id in Added(s, id)
    ensures forall x :: x in Added(s, id) <==> x in s || x == id
    ensures Added(Added(s, id), id) == Added(s, id)
  {
  }

  /** `retain` removes exactly `id`: nothing else disappears, the list gets
      no longer, and distinctness survives (`RemovedConcat` gives the order). */
  lemma {:induction false} RemovedSpec(s: seq<EntityId>, id: EntityId)
    ensures forall x :: x in Removed(s, id) <==> x in s && x != id
    ensures |Removed(s, id)| <= |s|
    ensures id !in s ==> Removed(s, id) == s
    ensures NoDuplicates(s) ==> NoDuplicates(Removed(s, id))
  {
    if s != [] {
      var init := s[..|s| - 1];
      RemovedSpec(init, id);
      assert s == init + [s[|s| - 1]];
      if NoDuplicates(s) {
        assert NoDuplicates(init);
        assert forall k :: 0 <= k < |init| ==> init[k] == s[k] && s[k] != s[|s| - 1];
        assert s[|s| - 1] !in init;
        if s[|s| - 1] != id {
          var r := Removed(init, id);
          assert s[|s| - 1] !in r;
          assert Removed(s, id) == r + [s[|s| - 1]];
        }
      }
    }
  }

  /** `retain` works element by element and keeps the order: filtering a
      concatenation filters each part, and a single id survives exactly when
      it is not the one removed. */
  lemma {:induction false} RemovedConcat(a: seq<EntityId>, b: seq<EntityId>, id: EntityId)
    ensures Removed(a + b, id) == Removed(a, id) + Removed(b, id)
    ensures forall x :: Removed([x], id) == if x == id then [] else [x]
  {
    if b == [] {
      assert a + b == a;
    } else {
      var init := b[..|b| - 1];
      RemovedConcat(a, init, id);
      assert (a + b)[..|a + b| - 1] == a + init;
      assert (a + b)[|a + b| - 1] == b[|b| - 1];
    }
  }

  /** Toggling twice restores membership; from an unselected id it restores
      the list itself. */
  lemma ToggleTwice(s: seq<EntityId>, id: EntityId)
    requires NoDuplicates(s)
    ensures forall x :: x in Toggled(Toggled(s, id), id) <==> x in s
    ensures id !in s ==> Toggled(Toggled(s, id), id) == s
  {
    RemovedSpec(s, id);
    RemovedSpec(s + [id], id);
    if id !in s {
      assert Added(s, id) == s + [id];
      assert Removed(s + [id], id) == Removed(s, id);
    }
  }

  /** `Selection`. */
  class Selection {
    var selected: seq<EntityId>

    ghost predicate Valid()
      reads this
    {
      NoDuplicates(selected)
    }

    /** `Selection::default`. */
    constructor ()
      ensures Valid() && selected == []
    {
      selected := [];
    }

    /** `is_selected`: the linear `contains` scan. */
    method IsSelected(id: EntityId) returns (b: bool)
      ensures b <==> id in selected
    {
      var i := 0;
      while i < |selected|
        invariant 0 <= i <= |selected|
        invariant id !in selected[..i]
      {
        if selected[i] == id {
          return true;
        }
        i := i + 1;
      }
      assert selected[..i] == selected;
      return false;
    }

    method Select(id: EntityId)
      requires Valid()
      modifies this
      ensures Valid()
      ensures selected == Added(old(selected), id)
    {
      AddedSpec(selected, id);
      var present := IsSelected(id);
      if !present {
        selected := selected + [id];
      }
    }

    method Deselect(id: EntityId)
      requires Valid()
      modifies this
      ensures Valid()
      ensures selected == Removed(old(selected), id)
    {
      RemovedSpec(selected, id);
      selected := Removed(selected, id);
    }

    method Clear()
      modifies this
      ensures Valid() && selected == []
    {
      selected := [];
    }

    method Toggle(id: EntityId)
      requires Valid()
      modifies this
      ensures Valid()
      ensures selected == Toggled(old(selected), id)
    {
      var present := IsSelected(id);
      if present {
        Deselect(id);
      } else {
        Select(id);
      }
    }
  }
}
