/** The order the user sees: every request does to the sorted scopes exactly
    what the plain list operation would. */
module BoardOrder {
  import opened Types
  import opened Position
  import opened Tasks
  import opened Scopes
  import opened Board
  import opened BoardInvariants
  import opened BoardRemovals

  // ---------- recognising a listing ----------

  ghost predicate Lists(tasks: Rows, scope: Scope, slot: Slot) {
    slot.id in Members(tasks, scope) && slot.position == tasks[slot.id].position
  }

  /** An ordered list of exactly the scope's rows is its listing. */
  lemma ListingIs(tasks: Rows, scope: Scope, l: seq<Slot>)
    requires Ordered(l)
    requires forall slot :: slot in l <==> Lists(tasks, scope, slot)
    ensures Listing(tasks, scope) == l
  {
    ListingHolds(tasks, scope);
    assert forall slot :: slot in Listing(tasks, scope) <==> Lists(tasks, scope, slot);
    OrderedUnique(Listing(tasks, scope), l);
  }

  lemma ListingSlots(tasks: Rows, scope: Scope)
    ensures forall slot :: slot in Listing(tasks, scope) <==> Lists(tasks, scope, slot)
    ensures |Listing(tasks, scope)| == |Members(tasks, scope)|
  {
    ListingHolds(tasks, scope);
  }

  // ---------- leaving rows out ----------

  ghost function Kept(slots: seq<Slot>, gone: set<Id>): seq<Slot> {
    if |slots| == 0 then []
    else
      var front := Kept(slots[..|slots| - 1], gone);
      if slots[|slots| - 1].id in gone then front else front + [slots[|slots| - 1]]
  }

  lemma {:induction false} KeptHolds(slots: seq<Slot>, gone: set<Id>)
    ensures forall slot :: slot in Kept(slots, gone) <==> slot in slots && slot.id !in gone
    ensures |Kept(slots, gone)| <= |slots|
  {
    if |slots| > 0 {
      var front, last := slots[..|slots| - 1], slots[|slots| - 1];
      KeptHolds(front, gone);
      assert slots == front + [last];
    }
  }

  lemma {:induction false} KeptOrdered(slots: seq<Slot>, gone: set<Id>)
    requires Ordered(slots)
    ensures Ordered(Kept(slots, gone))
  {
    if |slots| > 0 {
      var front, last := slots[..|slots| - 1], slots[|slots| - 1];
      KeptOrdered(front, gone);
      KeptHolds(front, gone);
      var kept := Kept(front, gone);
      forall i | 0 <= i < |kept|
        ensures Before(kept[i], last)
      {
        assert kept[i] in kept;
        var j :| 0 <= j < |front| && front[j] == kept[i];
        assert Before(slots[j], slots[|slots| - 1]);
      }
    }
  }

  lemma {:induction false} RemovedIsKept(slots: seq<Slot>, id: Id)
    ensures Removed(slots, id) == Kept(slots, {id})
  {
    if |slots| > 0 {
      RemovedIsKept(slots[..|slots| - 1], id);
    }
  }

  // ---------- requests that leave places alone ----------

  /** Where a row stands, and whether it is listed at all. */
  ghost predicate SamePlace(a: Task, b: Task) {
    a.parent == b.parent && a.quadrant == b.quadrant && a.position == b.position && a.deletedAt == b.deletedAt
  }

  ghost predicate SamePlaces(before: Rows, after: Rows) {
    before.Keys == after.Keys && forall id :: id in before ==> SamePlace(before[id], after[id])
  }

  lemma SamePlacesSameListing(before: Rows, after: Rows, scope: Scope)
    requires SamePlaces(before, after)
    ensures Listing(after, scope) == Listing(before, scope)
  {
    ListingSlots(before, scope);
    forall slot
      ensures Lists(after, scope, slot) <==> Lists(before, scope, slot)
    {
      assert slot.id in before ==> SamePlace(before[slot.id], after[slot.id]);
    }
    ListingIs(after, scope, Listing(before, scope));
  }

  // ---------- deleting ----------

  lemma DeletedListing(tasks: Rows, doomed: set<Id>, now: int, scope: Scope)
    ensures Listing(DeletedRows(tasks, doomed, now), scope) == Kept(Listing(tasks, scope), doomed)
  {
    var after, l := DeletedRows(tasks, doomed, now), Listing(tasks, scope);
    ListingSlots(tasks, scope);
    KeptHolds(l, doomed);
    KeptOrdered(l, doomed);
    ListingIs(after, scope, Kept(l, doomed));
  }

  // ---------- placing ----------

  lemma OrderedDistinct(slots: seq<Slot>, tasks: Rows, scope: Scope)
    requires Ordered(slots) && forall slot :: slot in slots ==> Lists(tasks, scope, slot)
    ensures forall i, j :: 0 <= i < j < |slots| ==> slots[i].id != slots[j].id
  {
    forall i, j | 0 <= i < j < |slots|
      ensures slots[i].id != slots[j].id
    {
      assert slots[i] in slots && slots[j] in slots && Before(slots[i], slots[j]);
    }
  }

  lemma IndexOfDistinct(slots: seq<Slot>, k: nat)
    requires k < |slots| && forall i, j :: 0 <= i < j < |slots| ==> slots[i].id != slots[j].id
    ensures IndexFrom(slots, slots[k].id, 0) == k
  {
  }

  lemma RepositionAt(tasks: Rows, placements: seq<Slot>, k: nat)
    requires k < |placements| && forall i, j :: 0 <= i < j < |placements| ==> placements[i].id != placements[j].id
    requires Live(tasks, placements[k].id)
    ensures Reposition(tasks, placements)[placements[k].id].position == placements[k].position
  {
    IndexOfDistinct(placements, k);
  }

  /** After the placements are written, a sibling stands where its slot of the new list says. */
  lemma SiblingStands(tasks: Rows, slots: seq<Slot>, index: nat, item: Id, scope: Scope, j: nat)
    requires Ordered(slots) && forall slot :: slot in slots ==> Lists(tasks, scope, slot) && slot.id != item
    requires index <= |slots| && j < |slots|
    ensures var moved := Reposition(tasks, PlaceAt(slots, index).placements);
            var out := After(slots, index, item);
            |out| == |slots| + 1 && slots[j].id in tasks && out[Shift(j, index)] == Slot(slots[j].id, moved[slots[j].id].position)
  {
    AfterAt(slots, index, item, Shift(j, index));
    assert slots[j] in slots;
    if MustRenumber(slots, index) {
      RenumberedStands(tasks, slots, index, scope, j);
    }
  }

  lemma RenumberedStands(tasks: Rows, slots: seq<Slot>, index: nat, scope: Scope, j: nat)
    requires Ordered(slots) && forall slot :: slot in slots ==> Lists(tasks, scope, slot)
    requires index <= |slots| && j < |slots| && MustRenumber(slots, index)
    ensures slots[j].id in tasks
    ensures Reposition(tasks, PlaceAt(slots, index).placements)[slots[j].id].position == Renumbered(Shift(j, index))
  {
    var placements := PlaceAt(slots, index).placements;
    assert |placements| == |slots|;
    OrderedDistinct(slots, tasks, scope);
    assert slots[j] in slots;
    RepositionAt(tasks, placements, j);
  }

  /** Rows the placements do not name stay put. */
  lemma StrangerStays(tasks: Rows, slots: seq<Slot>, index: nat, id: Id)
    requires index <= |slots| && id in tasks && forall slot :: slot in slots ==> slot.id != id
    ensures Reposition(tasks, PlaceAt(slots, index).placements)[id] == tasks[id]
  {
    var placements := PlaceAt(slots, index).placements;
    forall i | 0 <= i < |placements|
      ensures placements[i].id != id
    {
      assert slots[i] in slots;
    }
  }

  /** `after` is what is left of `tasks` when the item has been placed at `index`
      of `slots`, the rest of its new scope. */
  ghost predicate Placement(tasks: Rows, after: Rows, slots: seq<Slot>, index: nat, item: Id, scope: Scope) {
    && index <= |slots|
    && (forall slot :: slot in slots <==> Lists(tasks, scope, slot) && slot.id != item)
    && Live(after, item) && InScope(after[item], scope)
    && after[item].position == PlaceAt(slots, index).position
    && after.Keys == tasks.Keys + {item}
    && (forall id :: id in tasks && id != item ==> after[id] == Reposition(tasks, PlaceAt(slots, index).placements)[id])
  }

  lemma SiblingIsListed(tasks: Rows, after: Rows, slots: seq<Slot>, index: nat, item: Id, scope: Scope, j: nat)
    requires Placement(tasks, after, slots, index, item, scope) && j < |slots|
    ensures slots[j].id in after && Lists(after, scope, Slot(slots[j].id, after[slots[j].id].position))
    ensures slots[j].id in tasks && after[slots[j].id] == Reposition(tasks, PlaceAt(slots, index).placements)[slots[j].id]
  {
    assert slots[j] in slots;
  }

  lemma PlacedSlotIsListed(tasks: Rows, after: Rows, slots: seq<Slot>, index: nat, item: Id, scope: Scope, i: nat)
    requires Ordered(slots) && Placement(tasks, after, slots, index, item, scope) && i <= |slots|
    ensures |After(slots, index, item)| == |slots| + 1 && Lists(after, scope, After(slots, index, item)[i])
  {
    if i == index {
      AfterAt(slots, index, item, i);
    } else {
      var j := if i < index then i else i - 1;
      SiblingIsListed(tasks, after, slots, index, item, scope, j);
      SiblingStands(tasks, slots, index, item, scope, j);
    }
  }

  lemma ListedSlotIsPlaced(tasks: Rows, after: Rows, slots: seq<Slot>, index: nat, item: Id, scope: Scope, slot: Slot)
    requires Ordered(slots) && Placement(tasks, after, slots, index, item, scope) && Lists(after, scope, slot)
    ensures slot in After(slots, index, item)
  {
    AfterAt(slots, index, item, index);
    if slot.id == item {
      assert After(slots, index, item)[index] == slot;
    } else {
      var was := Slot(slot.id, tasks[slot.id].position);
      assert Lists(tasks, scope, was);
      var j :| 0 <= j < |slots| && slots[j] == was;
      SiblingStands(tasks, slots, index, item, scope, j);
      assert After(slots, index, item)[Shift(j, index)] == slot;
    }
  }

  /** The scope's listing once a row has been placed in it. */
  lemma PlacedListing(tasks: Rows, after: Rows, slots: seq<Slot>, index: nat, item: Id, scope: Scope)
    requires Sound(slots) && Placement(tasks, after, slots, index, item, scope)
    ensures Listing(after, scope) == After(slots, index, item)
  {
    var out := After(slots, index, item);
    PlaceRefinesInsertion(slots, index, item);
    AfterAt(slots, index, item, 0);
    forall slot
      ensures slot in out <==> Lists(after, scope, slot)
    {
      if slot in out {
        var i :| 0 <= i < |out| && out[i] == slot;
        PlacedSlotIsListed(tasks, after, slots, index, item, scope, i);
      }
      if Lists(after, scope, slot) {
        ListedSlotIsPlaced(tasks, after, slots, index, item, scope, slot);
      }
    }
    ListingIs(after, scope, out);
  }

  /** A row that was in another scope is in its own scope still, where it was. */
  lemma StrangerIsListed(tasks: Rows, after: Rows, slots: seq<Slot>, index: nat, item: Id, scope: Scope, other: Scope, slot: Slot)
    requires Placement(tasks, after, slots, index, item, scope) && other != scope
    requires slot.id in tasks ==> WellPlaced(slot.id, tasks[slot.id])
    requires !InScope(after[item], other)
    ensures Lists(after, other, slot) <==> Lists(tasks, other, slot) && slot.id != item
  {
    if slot.id in tasks && slot.id != item && InScope(tasks[slot.id], other) {
      StrangerStays(tasks, slots, index, slot.id);
    }
  }

  /** Every other scope only loses the row, if it held it. */
  lemma OtherListing(tasks: Rows, after: Rows, slots: seq<Slot>, index: nat, item: Id, scope: Scope, other: Scope)
    requires Placement(tasks, after, slots, index, item, scope) && other != scope
    requires TreeOK(tasks) && !InScope(after[item], other)
    ensures Listing(after, other) == Kept(Listing(tasks, other), {item})
  {
    var l := Listing(tasks, other);
    ListingSlots(tasks, other);
    KeptHolds(l, {item});
    KeptOrdered(l, {item});
    forall slot
      ensures slot in Kept(l, {item}) <==> Lists(after, other, slot)
    {
      assert slot.id in tasks ==> RowPlaced(tasks, slot.id);
      StrangerIsListed(tasks, after, slots, index, item, scope, other, slot);
    }
    ListingIs(after, other, Kept(l, {item}));
  }
}
