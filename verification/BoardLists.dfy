/** The plain lists of ids that gap positions stand for, and what one change of
    the rows does to the lists they sort to. */
module BoardLists {
  import opened Types
  import opened Position
  import opened Tasks
  import opened Scopes
  import opened Board
  import opened BoardInvariants
  import opened BoardMoves
  import opened BoardOrder

  // ---------- the plain lists ----------

  /** The first place of an id in a list, or its length. */
  function FirstAt(ids: seq<Id>, id: Id): (i: nat)
    ensures i <= |ids|
    ensures i < |ids| ==> ids[i] == id
    ensures forall j :: 0 <= j < i ==> ids[j] != id
  {
    if |ids| == 0 || ids[0] == id then 0 else FirstAt(ids[1..], id) + 1
  }

  function Insert(ids: seq<Id>, index: nat, id: Id): seq<Id>
    requires index <= |ids|
  {
    ids[..index] + [id] + ids[index..]
  }

  /** Insertion right before or right after the named neighbour, or at the end. */
  function InsertBeside(ids: seq<Id>, id: Id, before: Option<Id>, after: Option<Id>): seq<Id> {
    if before.Some? then Insert(ids, FirstAt(ids, before.value), id)
    else if after.Some? && FirstAt(ids, after.value) < |ids| then Insert(ids, FirstAt(ids, after.value) + 1, id)
    else ids + [id]
  }

  ghost function LeaveOut(ids: seq<Id>, gone: set<Id>): seq<Id> {
    if |ids| == 0 then []
    else
      var front := LeaveOut(ids[..|ids| - 1], gone);
      if ids[|ids| - 1] in gone then front else front + [ids[|ids| - 1]]
  }

  // ---------- the conditions ----------

  ghost predicate PositionsInRange(tasks: Rows) {
    forall id :: Live(tasks, id) ==> 1 <= tasks[id].position <= POSITION_CEILING
  }

  ghost predicate SmallScopes(tasks: Rows) {
    forall scope :: |Members(tasks, scope)| + 1 <= SCOPE_LIMIT
  }

  // ---------- ids and slots ----------

  lemma SlotIdsAre(slots: seq<Slot>)
    ensures SlotIds(slots) == Ids(slots)
  {
  }

  lemma {:induction false} KeptIds(slots: seq<Slot>, gone: set<Id>)
    ensures SlotIds(Kept(slots, gone)) == LeaveOut(SlotIds(slots), gone)
  {
    if |slots| > 0 {
      var front := slots[..|slots| - 1];
      KeptIds(front, gone);
      assert SlotIds(slots)[..|slots| - 1] == SlotIds(front);
      assert SlotIds(Kept(front, gone) + [slots[|slots| - 1]]) == SlotIds(Kept(front, gone)) + [slots[|slots| - 1].id];
    } else {
      assert SlotIds(Kept(slots, gone)) == [];
    }
  }

  lemma FirstAgrees(slots: seq<Slot>, id: Id)
    requires IndexFrom(slots, id, 0) >= 0
    ensures FirstAt(SlotIds(slots), id) == IndexFrom(slots, id, 0)
  {
    var ids, first, found := SlotIds(slots), FirstAt(SlotIds(slots), id), IndexFrom(slots, id, 0);
    assert ids[found] == id;
    assert first <= found;
    assert slots[first].id == ids[first];
  }

  lemma IndexAgrees(slots: seq<Slot>, id: Id, before: Option<Id>, after: Option<Id>)
    requires TargetIndex(slots, before, after).Ok?
    ensures InsertBeside(SlotIds(slots), id, before, after)
            == Insert(SlotIds(slots), TargetIndex(slots, before, after).value, id)
  {
    var ids := SlotIds(slots);
    if before.Some? {
      FirstAgrees(slots, before.value);
    } else if after.Some? {
      FirstAgrees(slots, after.value);
    } else {
      assert ids[..|ids|] == ids && ids[|ids|..] == [];
    }
  }

  // ---------- one placement ----------

  lemma ScopeIsSound(tasks: Rows, scope: Scope)
    requires PositionsInRange(tasks) && SmallScopes(tasks)
    ensures Sound(Listing(tasks, scope))
  {
    var l := Listing(tasks, scope);
    ListingSlots(tasks, scope);
    assert |Members(tasks, scope)| + 1 <= SCOPE_LIMIT;
    forall i | 0 <= i < |l|
      ensures 1 <= l[i].position <= POSITION_CEILING
    {
      assert l[i] in l && Lists(tasks, scope, l[i]) && Live(tasks, l[i].id);
    }
  }

  lemma RestIsSound(tasks: Rows, scope: Scope, id: Id)
    requires PositionsInRange(tasks) && SmallScopes(tasks)
    ensures var rest := Removed(Listing(tasks, scope), id);
            && Sound(rest) && rest == Kept(Listing(tasks, scope), {id})
            && (forall slot :: slot in rest <==> Lists(tasks, scope, slot) && slot.id != id)
            && (StrictlyIncreasing(Listing(tasks, scope)) ==> StrictlyIncreasing(rest))
  {
    var l := Listing(tasks, scope);
    ScopeIsSound(tasks, scope);
    ListingSlots(tasks, scope);
    RemovedIsKept(l, id);
    KeptHolds(l, {id});
    KeptOrdered(l, {id});
    KeptKeeps(l, {id});
  }

  lemma {:induction false} KeptKeeps(slots: seq<Slot>, gone: set<Id>)
    ensures InRange(slots) ==> InRange(Kept(slots, gone))
    ensures StrictlyIncreasing(slots) ==> StrictlyIncreasing(Kept(slots, gone))
  {
    if |slots| > 0 {
      var front := slots[..|slots| - 1];
      KeptKeeps(front, gone);
      KeptHolds(front, gone);
      var kept := Kept(front, gone);
      forall i | 0 <= i < |kept|
        ensures exists j :: 0 <= j < |slots| - 1 && slots[j] == kept[i]
      {
        assert kept[i] in kept;
        var j :| 0 <= j < |front| && front[j] == kept[i];
        assert slots[j] == kept[i];
      }
    }
  }

  lemma MovedRowHasOneScope(t: Task, scope: Scope, position: int, other: Scope)
    requires MayPlace(t, scope) && (t.parent.None? || t.quadrant.None?)
    ensures InScope(MovedRow(t, scope, position), other) <==> other == scope
  {
  }

  lemma PlacedRowsArePlacement(tasks: Rows, id: Id, scope: Scope, index: nat, rest: seq<Slot>)
    requires TreeOK(tasks) && Live(tasks, id) && MayPlace(tasks[id], scope) && index <= |rest|
    requires forall slot :: slot in rest <==> Lists(tasks, scope, slot) && slot.id != id
    ensures Placement(tasks, PlacedRows(tasks, id, scope, PlaceAt(rest, index)), rest, index, id, scope)
  {
    assert RowPlaced(tasks, id);
    MovedRowHasOneScope(tasks[id], scope, PlaceAt(rest, index).position, scope);
  }

  /** Placing a row is list insertion in its new scope and removal everywhere else. */
  lemma PlacingOrders(tasks: Rows, id: Id, scope: Scope, index: nat, other: Scope)
    requires TreeOK(tasks) && Live(tasks, id) && MayPlace(tasks[id], scope)
    requires PositionsInRange(tasks) && SmallScopes(tasks)
    requires index <= |Removed(Listing(tasks, scope), id)|
    ensures var after := PlacedRows(tasks, id, scope, PlaceAt(Removed(Listing(tasks, scope), id), index));
            var rest := Removed(Listing(tasks, other), id);
            && SlotIds(rest) == LeaveOut(SlotIds(Listing(tasks, other)), {id})
            && SlotIds(Listing(after, other)) == (if other == scope then Insert(SlotIds(rest), index, id) else SlotIds(rest))
            && (StrictlyIncreasing(Listing(tasks, other)) ==> StrictlyIncreasing(Listing(after, other)))
            && InRange(Listing(after, other))
  {
    var rest := Removed(Listing(tasks, scope), id);
    var after := PlacedRows(tasks, id, scope, PlaceAt(rest, index));
    RestIsSound(tasks, scope, id);
    PlacedRowsArePlacement(tasks, id, scope, index, rest);
    RestIsSound(tasks, other, id);
    KeptIds(Listing(tasks, other), {id});
    if other == scope {
      PlacedListing(tasks, after, rest, index, id, scope);
      PlaceRefinesInsertion(rest, index, id);
      SlotIdsAre(rest);
      SlotIdsAre(After(rest, index, id));
    } else {
      assert RowPlaced(tasks, id);
      MovedRowHasOneScope(tasks[id], scope, PlaceAt(rest, index).position, other);
      OtherListing(tasks, after, rest, index, id, scope, other);
    }
  }

  // ---------- creating ----------

  lemma {:induction false} KeptAbsent(slots: seq<Slot>, gone: set<Id>)
    requires forall slot :: slot in slots ==> slot.id !in gone
    ensures Kept(slots, gone) == slots
  {
    if |slots| > 0 {
      assert slots[|slots| - 1] in slots;
      KeptAbsent(slots[..|slots| - 1], gone);
      assert slots[..|slots| - 1] + [slots[|slots| - 1]] == slots;
    }
  }

  lemma DraftRowHasOneScope(draft: Draft, position: int, other: Scope)
    requires draft.parent.Some? || draft.quadrant.Known?
    ensures InScope(DraftRow(draft, position), other) <==> other == DraftScope(draft)
  {
  }

  lemma CreatedRowsArePlacement(tasks: Rows, id: Id, draft: Draft)
    requires id !in tasks && draft.parent.None? && draft.quadrant.Known?
    ensures var l := Listing(tasks, DraftScope(draft));
            Placement(tasks, CreatedRows(tasks, id, draft), l, |l|, id, DraftScope(draft))
  {
    var scope, l := DraftScope(draft), Listing(tasks, DraftScope(draft));
    ListingSlots(tasks, scope);
    DraftRowHasOneScope(draft, EndOf(tasks, scope).position, scope);
  }

  lemma CreatedTaskOrders(tasks: Rows, id: Id, draft: Draft, other: Scope)
    requires TreeOK(tasks) && id !in tasks && draft.parent.None? && draft.quadrant.Known?
    requires PositionsInRange(tasks) && SmallScopes(tasks)
    ensures var after := CreatedRows(tasks, id, draft);
            && SlotIds(Listing(after, other))
               == (if other == DraftScope(draft) then SlotIds(Listing(tasks, other)) + [id] else SlotIds(Listing(tasks, other)))
            && (StrictlyIncreasing(Listing(tasks, other)) ==> StrictlyIncreasing(Listing(after, other)))
            && InRange(Listing(after, other))
  {
    var scope, after := DraftScope(draft), CreatedRows(tasks, id, draft);
    var l := Listing(tasks, scope);
    ScopeIsSound(tasks, scope);
    CreatedRowsArePlacement(tasks, id, draft);
    if other == scope {
      PlacedListing(tasks, after, l, |l|, id, scope);
      PlaceRefinesInsertion(l, |l|, id);
      SlotIdsAre(l);
      SlotIdsAre(After(l, |l|, id));
      assert Ids(l)[..|l|] + [id] + Ids(l)[|l|..] == Ids(l) + [id];
    } else {
      DraftRowHasOneScope(draft, EndOf(tasks, scope).position, other);
      OtherListing(tasks, after, l, |l|, id, scope, other);
      NewRowWasNotListed(tasks, id, other);
      ScopeIsSound(tasks, other);
    }
  }

  lemma NewRowWasNotListed(tasks: Rows, id: Id, scope: Scope)
    requires id !in tasks
    ensures Kept(Listing(tasks, scope), {id}) == Listing(tasks, scope)
  {
    ListingSlots(tasks, scope);
    KeptAbsent(Listing(tasks, scope), {id});
  }

  lemma AddedRowListing(tasks: Rows, id: Id, row: Task, scope: Scope)
    requires id !in tasks && row.deletedAt.None?
    ensures var l, slot := Listing(tasks, scope), Slot(id, row.position);
            && (!InScope(row, scope) ==> Listing(tasks[id := row], scope) == l)
            && (InScope(row, scope) && Ordered(l + [slot]) ==> Listing(tasks[id := row], scope) == l + [slot])
  {
    var l, slot := Listing(tasks, scope), Slot(id, row.position);
    ListingSlots(tasks, scope);
    if !InScope(row, scope) {
      ListingIs(tasks[id := row], scope, l);
    } else if Ordered(l + [slot]) {
      assert forall s :: s in l + [slot] <==> s in l || s == slot;
      ListingIs(tasks[id := row], scope, l + [slot]);
    }
  }

  lemma LastBounds(l: seq<Slot>, slot: Slot)
    requires Ordered(l) && (|l| > 0 ==> Before(l[|l| - 1], slot))
    ensures Ordered(l + [slot])
  {
    forall i | 0 <= i < |l|
      ensures Before(l[i], slot)
    {
      if i < |l| - 1 {
        assert Before(l[i], l[|l| - 1]);
      }
    }
  }

  lemma EndsUpLastIsOrdered(l: seq<Slot>, id: Id)
    requires Sound(l) && EndsUpLast(l, id)
    ensures Ordered(l + [Slot(id, PlaceAt(l, |l|).position)])
  {
    AppendWithoutPlacements(l);
    LastBounds(l, Slot(id, PlaceAt(l, |l|).position));
  }

  /** An ordered list is strict exactly when no two of its slots stand at one place. */
  lemma StrictExactly(l: seq<Slot>)
    requires Ordered(l)
    ensures StrictlyIncreasing(l) <==> forall s, t :: s in l && t in l && s.position == t.position ==> s == t
  {
    if forall s, t :: s in l && t in l && s.position == t.position ==> s == t {
      forall i, j | 0 <= i < j < |l|
        ensures l[i].position < l[j].position
      {
        assert l[i] in l && l[j] in l && Before(l[i], l[j]);
      }
    }
  }

  lemma AddedRowSlots(tasks: Rows, id: Id, row: Task, scope: Scope)
    requires id !in tasks && row.deletedAt.None? && InScope(row, scope)
    ensures forall slot :: slot in Listing(tasks[id := row], scope) <==> slot in Listing(tasks, scope) || slot == Slot(id, row.position)
    ensures Slot(id, row.position) !in Listing(tasks, scope)
  {
    ListingSlots(tasks, scope);
    ListingSlots(tasks[id := row], scope);
  }

  /** One slot more is strict exactly when the rest was and nobody stands there. */
  lemma OneMoreIsStrict(l: seq<Slot>, now: seq<Slot>, slot: Slot)
    requires Ordered(l) && Ordered(now) && slot !in l && forall s :: s in now <==> s in l || s == slot
    ensures StrictlyIncreasing(now) <==> StrictlyIncreasing(l) && forall s :: s in l ==> s.position != slot.position
  {
    StrictExactly(l);
    StrictExactly(now);
    assert slot in now;
  }

  /** A new subtask ties with a sibling exactly when the end was not free. */
  lemma CreatedSubtaskTies(tasks: Rows, id: Id, draft: Draft)
    requires id !in tasks && draft.parent.Some?
    requires PositionsInRange(tasks) && SmallScopes(tasks)
    ensures var l := Listing(tasks, DraftScope(draft));
            StrictlyIncreasing(Listing(CreatedRows(tasks, id, draft), DraftScope(draft)))
            <==> StrictlyIncreasing(l) && EndIsFree(l)
  {
    var scope := DraftScope(draft);
    var l, row := Listing(tasks, scope), DraftRow(draft, EndOf(tasks, scope).position);
    ScopeIsSound(tasks, scope);
    DraftRowHasOneScope(draft, row.position, scope);
    AddedRowSlots(tasks, id, row, scope);
    OneMoreIsStrict(l, Listing(tasks[id := row], scope), Slot(id, row.position));
    FreeEndExactly(l);
  }

  /** A subtask leaves every other scope as it was, and joins its siblings' list
      at the end when it ends up last there. */
  lemma CreatedSubtaskOrders(tasks: Rows, id: Id, draft: Draft, other: Scope)
    requires id !in tasks && draft.parent.Some?
    requires PositionsInRange(tasks) && SmallScopes(tasks)
    ensures var after, l := CreatedRows(tasks, id, draft), Listing(tasks, other);
            && (other != DraftScope(draft) ==> Listing(after, other) == l)
            && (other == DraftScope(draft) && EndsUpLast(l, id) ==> SlotIds(Listing(after, other)) == SlotIds(l) + [id])
  {
    var scope, l := DraftScope(draft), Listing(tasks, other);
    var row := DraftRow(draft, EndOf(tasks, scope).position);
    DraftRowHasOneScope(draft, EndOf(tasks, scope).position, other);
    AddedRowListing(tasks, id, row, other);
    if other == scope && EndsUpLast(l, id) {
      ScopeIsSound(tasks, other);
      EndsUpLastIsOrdered(l, id);
      assert SlotIds(l + [Slot(id, row.position)]) == SlotIds(l) + [id];
    }
  }

  /** When it does not end up last, it is listed before a sibling: the promise of the list is broken. */
  lemma SubtaskNotLast(tasks: Rows, id: Id, draft: Draft)
    requires id !in tasks && draft.parent.Some?
    requires PositionsInRange(tasks) && SmallScopes(tasks)
    requires !EndsUpLast(Listing(tasks, DraftScope(draft)), id)
    ensures SlotIds(Listing(CreatedRows(tasks, id, draft), DraftScope(draft))) != SlotIds(Listing(tasks, DraftScope(draft))) + [id]
  {
    var scope, after := DraftScope(draft), CreatedRows(tasks, id, draft);
    var l, now := Listing(tasks, scope), Listing(after, scope);
    var slot, last := Slot(id, PlaceAt(l, |l|).position), l[|l| - 1];
    ScopeIsSound(tasks, scope);
    AppendWithoutPlacements(l);
    DraftRowHasOneScope(draft, EndOf(tasks, scope).position, scope);
    ListingSlots(tasks, scope);
    ListingSlots(after, scope);
    assert last in l && last.id != id;
    assert Before(slot, last);
    assert Lists(after, scope, last) && Lists(after, scope, slot);
    EarlierIsNotLast(now, slot, last);
    assert now[|now| - 1] in now;
    assert SlotIds(now)[|now| - 1] != id;
    assert (SlotIds(l) + [id])[|l|] == id;
  }

  lemma EarlierIsNotLast(now: seq<Slot>, slot: Slot, later: Slot)
    requires Ordered(now) && slot in now && later in now && Before(slot, later)
    ensures now[|now| - 1] != slot
  {
    var j :| 0 <= j < |now| && now[j] == later;
    if j < |now| - 1 {
      assert Before(now[j], now[|now| - 1]);
    }
  }

  // ---------- range ----------

  /** A task is listed somewhere, so positions listed in range are positions in range. */
  lemma RangeFromListings(tasks: Rows)
    requires TreeOK(tasks) && forall scope :: InRange(Listing(tasks, scope))
    ensures PositionsInRange(tasks)
  {
    forall id | Live(tasks, id)
      ensures 1 <= tasks[id].position <= POSITION_CEILING
    {
      assert RowPlaced(tasks, id);
      var t := tasks[id];
      var scope := if t.parent.Some? then UnderParent(t.parent.value) else InQuadrant(t.quadrant.value);
      var slot := Slot(id, t.position);
      ListingSlots(tasks, scope);
      assert Lists(tasks, scope, slot);
      var i :| 0 <= i < |Listing(tasks, scope)| && Listing(tasks, scope)[i] == slot;
      assert InRange(Listing(tasks, scope));
    }
  }
}
