/** The discarded placements of write.go:105 at work: a run of an account from
    its beginning in which a new subtask is listed before its siblings, and ties
    with one of them. */
module BoardOrderLimits {
  import opened Types
  import opened Position
  import opened Tasks
  import opened Scopes
  import opened Board
  import opened BoardInvariants
  import opened BoardMoves
  import opened BoardRuns
  import opened BoardOrder
  import opened BoardLists
  import opened BoardOrderRuns

  const PARENT: Id := 1
  const SIBLINGS := UnderParent(PARENT)
  const SETUP := Setup(Pro, [])

  function NewParent(): Request {
    DoCreate(PARENT, Draft(None, Known(ImportantUrgent), None, false, true))
  }

  function NewChild(id: Id): Request {
    DoCreate(id, Draft(Some(PARENT), Absent, None, false, true))
  }

  /** Dragging a subtask to the end of its list. */
  function ToEnd(id: Id): Request {
    DoMove(id, Move(Absent, Some(PARENT), None, None))
  }

  // ---------- what the run goes through ----------

  /** The parent is there, and its subtasks, all open, are listed like this. */
  ghost predicate Standing(tasks: Rows, slots: seq<Slot>) {
    && Live(tasks, PARENT) && !tasks[PARENT].IsSubtask()
    && Listing(tasks, SIBLINGS) == slots
    && (forall slot :: slot in slots ==> slot.id in tasks && !tasks[slot.id].IsCompleted())
  }

  /** The end of the list can be appended to. */
  predicate Roomy(slots: seq<Slot>) {
    0 <= Lower(slots, |slots|) && Lower(slots, |slots|) + 2 * POSITION_GAP <= POSITION_CEILING
  }

  lemma RoomyEnd(slots: seq<Slot>)
    requires Roomy(slots)
    ensures PlaceAt(slots, |slots|) == Placed(Lower(slots, |slots|) + POSITION_GAP, [])
    ensures TailRoom(slots)
  {
  }

  lemma FewTasksAreSmall(tasks: Rows)
    requires |tasks| <= 5
    ensures SmallScopes(tasks)
  {
    forall scope
      ensures |Members(tasks, scope)| + 1 <= SCOPE_LIMIT
    {
      SubsetOfKeys(Members(tasks, scope), tasks.Keys);
    }
  }

  lemma {:induction false} SubsetOfKeys(a: set<Id>, b: set<Id>)
    requires a <= b
    ensures |a| <= |b|
  {
    if id :| id in a {
      SubsetOfKeys(a - {id}, b - {id});
    }
  }

  // ---------- adding a child ----------

  /** The row a new child gets when there is room. */
  function ChildRow(slots: seq<Slot>): Task {
    DraftRow(NewChild(1).draft, Lower(slots, |slots|) + POSITION_GAP)
  }

  lemma ChildIsAccepted(s: State, id: Id)
    requires TreeOK(s.tasks) && RowsOK(s.tasks) && Live(s.tasks, PARENT) && !s.tasks[PARENT].IsSubtask()
    requires id != NIL && id !in s.tasks
    ensures Serve(s, SETUP, NewChild(id)).Ok?
    ensures Next(s, SETUP, NewChild(id)).tasks == CreatedRows(s.tasks, id, NewChild(id).draft)
  {
    CreateAccepts(s, SETUP, id, NewChild(id).draft);
  }

  lemma ChildIsListed(tasks: Rows, slots: seq<Slot>, id: Id)
    requires Standing(tasks, slots) && Roomy(slots) && id !in tasks
    ensures CreatedRows(tasks, id, NewChild(id).draft) == tasks[id := ChildRow(slots)]
    ensures Standing(tasks[id := ChildRow(slots)], slots + [Slot(id, Lower(slots, |slots|) + POSITION_GAP)])
  {
    RoomyEnd(slots);
    LastBounds(slots, Slot(id, Lower(slots, |slots|) + POSITION_GAP));
    AddedRowListing(tasks, id, ChildRow(slots), SIBLINGS);
  }

  lemma ChildIsAdded(s: State, slots: seq<Slot>, id: Id)
    requires TreeOK(s.tasks) && RowsOK(s.tasks) && Standing(s.tasks, slots) && Roomy(slots) && id != NIL && id !in s.tasks
    ensures Serve(s, SETUP, NewChild(id)).Ok?
    ensures Standing(Next(s, SETUP, NewChild(id)).tasks, slots + [Slot(id, Lower(slots, |slots|) + POSITION_GAP)])
    ensures Next(s, SETUP, NewChild(id)).tasks.Keys == s.tasks.Keys + {id}
  {
    ChildIsAccepted(s, id);
    ChildIsListed(s.tasks, slots, id);
  }

  // ---------- moving to the end ----------

  lemma MemberStands(tasks: Rows, slots: seq<Slot>, slot: Slot)
    requires Standing(tasks, slots) && slot in slots
    ensures Live(tasks, slot.id) && tasks[slot.id].parent == Some(PARENT) && !tasks[slot.id].IsCompleted()
  {
    ListingSlots(tasks, SIBLINGS);
    assert Lists(tasks, SIBLINGS, slot);
  }

  ghost function MovedRows(tasks: Rows, slots: seq<Slot>, id: Id): Rows
    requires id in tasks
  {
    var rest := Removed(slots, id);
    PlacedRows(tasks, id, SIBLINGS, PlaceAt(rest, |rest|))
  }

  lemma MoveIsPlacing(s: State, id: Id)
    requires Live(s.tasks, id) && s.tasks[id].parent == Some(PARENT) && !s.tasks[id].IsCompleted()
    requires PlaceRow(s.tasks, id, SIBLINGS, None, None).Ok?
    ensures Serve(s, SETUP, ToEnd(id)) == Ok(s.(tasks := PlaceRow(s.tasks, id, SIBLINGS, None, None).value))
  {
  }

  lemma PlacingIsAccepted(tasks: Rows, slots: seq<Slot>, id: Id)
    requires TreeOK(tasks) && RowsOK(tasks) && Live(tasks, id) && tasks[id].parent == Some(PARENT)
    requires Listing(tasks, SIBLINGS) == slots
    ensures PlaceRow(tasks, id, SIBLINGS, None, None) == Ok(MovedRows(tasks, slots, id))
  {
    PlaceRowOutcome(tasks, id, SIBLINGS, None, None);
  }

  lemma MoveIsAccepted(s: State, slots: seq<Slot>, slot: Slot)
    requires TreeOK(s.tasks) && RowsOK(s.tasks) && Standing(s.tasks, slots) && slot in slots
    ensures Serve(s, SETUP, ToEnd(slot.id)).Ok? && slot.id in s.tasks
    ensures Next(s, SETUP, ToEnd(slot.id)).tasks == MovedRows(s.tasks, slots, slot.id)
  {
    MemberStands(s.tasks, slots, slot);
    PlacingIsAccepted(s.tasks, slots, slot.id);
    MoveIsPlacing(s, slot.id);
  }

  lemma MoveIsPlacement(tasks: Rows, slots: seq<Slot>, slot: Slot, rest: seq<Slot>)
    requires TreeOK(tasks) && PositionsInRange(tasks) && SmallScopes(tasks)
    requires Live(tasks, slot.id) && tasks[slot.id].parent == Some(PARENT) && Listing(tasks, SIBLINGS) == slots
    requires rest == Removed(slots, slot.id)
    ensures Sound(rest) && Placement(tasks, MovedRows(tasks, slots, slot.id), rest, |rest|, slot.id, SIBLINGS)
  {
    RestIsSound(tasks, SIBLINGS, slot.id);
    PlacedRowsArePlacement(tasks, slot.id, SIBLINGS, |rest|, rest);
  }

  lemma AfterRoomyEnd(rest: seq<Slot>, id: Id)
    requires Roomy(rest)
    ensures After(rest, |rest|, id) == rest + [Slot(id, Lower(rest, |rest|) + POSITION_GAP)]
  {
    RoomyEnd(rest);
    assert rest[..|rest|] == rest && rest[|rest|..] == [];
  }

  lemma MovedListing(tasks: Rows, slots: seq<Slot>, slot: Slot, rest: seq<Slot>)
    requires TreeOK(tasks) && PositionsInRange(tasks) && SmallScopes(tasks)
    requires Live(tasks, slot.id) && tasks[slot.id].parent == Some(PARENT) && Listing(tasks, SIBLINGS) == slots
    requires rest == Removed(slots, slot.id) && Roomy(rest)
    ensures Listing(MovedRows(tasks, slots, slot.id), SIBLINGS) == rest + [Slot(slot.id, Lower(rest, |rest|) + POSITION_GAP)]
  {
    MoveIsPlacement(tasks, slots, slot, rest);
    PlacedListing(tasks, MovedRows(tasks, slots, slot.id), rest, |rest|, slot.id, SIBLINGS);
    AfterRoomyEnd(rest, slot.id);
  }

  lemma MovedStay(tasks: Rows, slots: seq<Slot>, slot: Slot)
    requires TreeOK(tasks) && RowsOK(tasks) && Live(tasks, slot.id) && tasks[slot.id].parent == Some(PARENT)
    requires Live(tasks, PARENT) && !tasks[PARENT].IsSubtask()
    ensures var after := MovedRows(tasks, slots, slot.id);
            && after.Keys == tasks.Keys && Live(after, PARENT) && !after[PARENT].IsSubtask()
            && (forall id :: id in tasks ==> after[id].IsCompleted() == tasks[id].IsCompleted())
  {
    var rest := Removed(slots, slot.id);
    var after := MovedRows(tasks, slots, slot.id);
    PlacedRowsOnlyMove(tasks, slot.id, SIBLINGS, PlaceAt(rest, |rest|));
    RepositionOnlyMoves(tasks, PlaceAt(rest, |rest|).placements);
    assert forall id :: id in tasks ==> SameWork(tasks[id], after[id]);
  }

  lemma RestStands(tasks: Rows, slots: seq<Slot>, id: Id)
    requires Standing(tasks, slots)
    ensures forall slot :: slot in Removed(slots, id) ==> slot.id in tasks && !tasks[slot.id].IsCompleted()
  {
    RemovedIsKept(slots, id);
    KeptHolds(slots, {id});
  }

  /** Where a drag to the end leaves the rows. */
  lemma MovedStands(tasks: Rows, slots: seq<Slot>, slot: Slot, rest: seq<Slot>, after: Rows)
    requires TidyRows(tasks) && Standing(tasks, slots) && slot in slots && rest == Removed(slots, slot.id) && Roomy(rest)
    requires slot.id in tasks && after == MovedRows(tasks, slots, slot.id)
    ensures Standing(after, rest + [Slot(slot.id, Lower(rest, |rest|) + POSITION_GAP)]) && after.Keys == tasks.Keys
  {
    MemberStands(tasks, slots, slot);
    MovedListing(tasks, slots, slot, rest);
    MovedStay(tasks, slots, slot);
    RestStands(tasks, slots, slot.id);
  }

  // ---------- the run ----------

  /** A run together with the states it goes through. */
  datatype Journey = Journey(requests: seq<Request>, states: seq<State>)

  /** One request of it: accounts stay small, and no subtask is added where it
      could not come last, or alone. */
  ghost predicate FineStep(s: State, request: Request, next: State) {
    && next == Next(s, SETUP, request)
    && SmallScopes(next.tasks)
    && AppendsInOrder(s.tasks, request, SIBLINGS) && AppendsApart(s.tasks, request, SIBLINGS)
  }

  ghost predicate FineAt(j: Journey, k: nat)
    requires k < |j.requests| && |j.states| == |j.requests| + 1
  {
    FineStep(j.states[k], j.requests[k], j.states[k + 1])
  }

  ghost predicate Fine(j: Journey) {
    && |j.states| == |j.requests| + 1 && j.states[0] == NEW_ACCOUNT
    && (forall k {:trigger FineAt(j, k)} :: 0 <= k < |j.requests| ==> FineAt(j, k))
  }

  /** It has come this far. */
  ghost predicate Reached(j: Journey, slots: seq<Slot>) {
    && Fine(j)
    && var tasks := j.states[|j.requests|].tasks;
       Standing(tasks, slots) && tasks.Keys <= {1, 2, 3, 4}
  }

  lemma FineNext(j: Journey, request: Request, next: State) returns (longer: Journey)
    requires Fine(j) && FineStep(j.states[|j.requests|], request, next)
    ensures Fine(longer) && longer.states[|longer.requests|] == next
    ensures longer.requests == j.requests + [request]
  {
    longer := Journey(j.requests + [request], j.states + [next]);
    forall k | 0 <= k < |longer.requests|
      ensures FineAt(longer, k)
    {
      assert k < |j.requests| ==> FineAt(j, k);
    }
  }

  lemma {:induction false} FineIsRun(j: Journey, k: nat)
    requires Fine(j) && k <= |j.requests|
    ensures At(SETUP, j.requests, k) == j.states[k] && SmallScopes(j.states[k].tasks)
  {
    if k == 0 {
      FourAreFew(NEW_ACCOUNT.tasks);
      assert j.requests[..0] == [];
    } else {
      FineIsRun(j, k - 1);
      assert FineAt(j, k - 1);
      NextAt(SETUP, j.requests, k - 1);
    }
  }

  lemma FineIsSteady(j: Journey)
    requires Fine(j)
    ensures StaysSmall(SETUP, j.requests)
    ensures AlwaysInOrder(SETUP, j.requests, SIBLINGS) && AlwaysApart(SETUP, j.requests, SIBLINGS)
  {
    forall k | 0 <= k <= |j.requests|
      ensures SmallScopes(At(SETUP, j.requests, k).tasks)
    {
      FineIsRun(j, k);
    }
    forall k | 0 <= k < |j.requests|
      ensures InOrderAt(SETUP, j.requests, k, SIBLINGS) && ApartAt(SETUP, j.requests, k, SIBLINGS)
    {
      FineIsRun(j, k);
      assert FineAt(j, k);
    }
  }

  ghost predicate TidyRows(tasks: Rows) {
    TreeOK(tasks) && RowsOK(tasks) && PositionsInRange(tasks) && SmallScopes(tasks)
  }

  lemma FineIsTidy(j: Journey)
    requires Fine(j)
    ensures TidyRows(j.states[|j.requests|].tasks)
  {
    var n := |j.requests|;
    FineIsSteady(j);
    FineIsRun(j, n);
    EveryRunKeepsInv(SETUP, j.requests[..n]);
    PositionsStayInRange(SETUP, j.requests, n);
  }

  lemma FourAreFew(tasks: Rows)
    requires tasks.Keys <= {1, 2, 3, 4}
    ensures SmallScopes(tasks)
  {
    SubsetOfKeys(tasks.Keys, {1, 2, 3, 4});
    assert |tasks| == |tasks.Keys|;
    FewTasksAreSmall(tasks);
  }

  // ---------- its requests ----------

  lemma ChildStep(s: State, slots: seq<Slot>, id: Id, more: seq<Slot>) returns (next: State)
    requires TidyRows(s.tasks) && Standing(s.tasks, slots) && Roomy(slots) && id !in s.tasks
    requires id in {2, 3, 4} && s.tasks.Keys <= {1, 2, 3, 4}
    requires more == slots + [Slot(id, Lower(slots, |slots|) + POSITION_GAP)]
    ensures FineStep(s, NewChild(id), next) && Standing(next.tasks, more) && next.tasks.Keys == s.tasks.Keys + {id}
  {
    next := Next(s, SETUP, NewChild(id));
    ChildIsAdded(s, slots, id);
    RoomyEnd(slots);
    FourAreFew(next.tasks);
  }

  lemma ChildReached(j: Journey, slots: seq<Slot>, id: Id, more: seq<Slot>) returns (longer: Journey)
    requires Reached(j, slots) && Roomy(slots) && id in {2, 3, 4} && id !in j.states[|j.requests|].tasks
    requires more == slots + [Slot(id, Lower(slots, |slots|) + POSITION_GAP)]
    ensures Reached(longer, more)
    ensures longer.states[|longer.requests|].tasks.Keys == j.states[|j.requests|].tasks.Keys + {id}
  {
    FineIsTidy(j);
    var next := ChildStep(j.states[|j.requests|], slots, id, more);
    longer := FineNext(j, NewChild(id), next);
  }

  lemma MoveStep(s: State, slots: seq<Slot>, slot: Slot, rest: seq<Slot>) returns (next: State)
    requires TidyRows(s.tasks) && Standing(s.tasks, slots) && s.tasks.Keys <= {1, 2, 3, 4}
    requires slot in slots && rest == Removed(slots, slot.id) && Roomy(rest)
    ensures FineStep(s, ToEnd(slot.id), next) && next.tasks.Keys == s.tasks.Keys
    ensures Standing(next.tasks, rest + [Slot(slot.id, Lower(rest, |rest|) + POSITION_GAP)])
  {
    next := MoveServed(s, slots, slot);
    MovedStands(s.tasks, slots, slot, rest, next.tasks);
    FourAreFew(next.tasks);
  }

  lemma MoveServed(s: State, slots: seq<Slot>, slot: Slot) returns (next: State)
    requires TidyRows(s.tasks) && Standing(s.tasks, slots) && slot in slots
    ensures next == Next(s, SETUP, ToEnd(slot.id))
    ensures slot.id in s.tasks && next.tasks == MovedRows(s.tasks, slots, slot.id)
  {
    next := Next(s, SETUP, ToEnd(slot.id));
    MoveIsAccepted(s, slots, slot);
  }

  lemma MoveReached(j: Journey, slots: seq<Slot>, slot: Slot, rest: seq<Slot>) returns (longer: Journey)
    requires Reached(j, slots) && slot in slots && rest == Removed(slots, slot.id) && Roomy(rest)
    ensures Reached(longer, rest + [Slot(slot.id, Lower(rest, |rest|) + POSITION_GAP)])
  {
    FineIsTidy(j);
    var next := MoveStep(j.states[|j.requests|], slots, slot, rest);
    longer := FineNext(j, ToEnd(slot.id), next);
  }

  lemma NoChildrenListed(tasks: Rows)
    requires Live(tasks, PARENT) && !tasks[PARENT].IsSubtask() && tasks.Keys == {PARENT}
    ensures Standing(tasks, [])
  {
    ListingSlots(tasks, SIBLINGS);
    assert Members(tasks, SIBLINGS) == {};
  }

  lemma ParentIsAccepted(s: State)
    requires TreeOK(s.tasks) && RowsOK(s.tasks) && PARENT !in s.tasks
    ensures Next(s, SETUP, NewParent()).tasks == CreatedRows(s.tasks, PARENT, NewParent().draft)
  {
    CreateAccepts(s, SETUP, PARENT, NewParent().draft);
  }

  lemma ParentStep(s: State) returns (next: State)
    requires s.tasks == map[]
    ensures FineStep(s, NewParent(), next) && Standing(next.tasks, []) && next.tasks.Keys == {PARENT}
  {
    next := Next(s, SETUP, NewParent());
    ParentIsAccepted(s);
    NoChildrenListed(next.tasks);
    FourAreFew(next.tasks);
  }

  lemma ParentReached() returns (j: Journey)
    ensures Reached(j, []) && j.states[|j.requests|].tasks.Keys == {PARENT}
  {
    var next := ParentStep(NEW_ACCOUNT);
    j := FineNext(Journey([], [NEW_ACCOUNT]), NewParent(), next);
  }

  // ---------- three siblings climb ----------

  function Three(a: Slot, b: Slot, c: Slot): (slots: seq<Slot>)
    ensures |slots| == 3
  {
    [a, b, c]
  }

  lemma WithoutOneOfThree(a: Slot, b: Slot, c: Slot)
    requires a.id != b.id && a.id != c.id && b.id != c.id
    ensures Removed(Three(a, b, c), a.id) == [b, c] && Removed(Three(a, b, c), b.id) == [a, c]
  {
    var l := Three(a, b, c);
    assert l[..2] == [a, b] && [a, b][..1] == [a] && [a][..0] == [];
    var none: seq<Slot> := [];
    assert Removed(none, b.id) == none;
    assert Removed([a], b.id) == none + [a];
    assert Removed([a], a.id) == none;
    assert Removed([a, b], a.id) == [b] && Removed([a, b], b.id) == [a];
  }

  lemma DragFirst(j: Journey, a: Slot, b: Slot, c: Slot) returns (longer: Journey)
    requires Reached(j, Three(a, b, c)) && a.id != b.id && a.id != c.id && b.id != c.id
    requires 0 <= c.position && c.position + 2 * POSITION_GAP <= POSITION_CEILING
    ensures Reached(longer, Three(b, c, Slot(a.id, c.position + POSITION_GAP)))
  {
    WithoutOneOfThree(a, b, c);
    longer := MoveReached(j, Three(a, b, c), a, [b, c]);
  }

  lemma DragMiddle(j: Journey, a: Slot, b: Slot, c: Slot) returns (longer: Journey)
    requires Reached(j, Three(a, b, c)) && a.id != b.id && a.id != c.id && b.id != c.id
    requires 0 <= c.position && c.position + 2 * POSITION_GAP <= POSITION_CEILING
    ensures Reached(longer, Three(a, c, Slot(b.id, c.position + POSITION_GAP)))
  {
    WithoutOneOfThree(a, b, c);
    longer := MoveReached(j, Three(a, b, c), b, [a, c]);
  }

  lemma OneChild() returns (j: Journey, slots: seq<Slot>)
    ensures slots == [Slot(2, 1024)] && Reached(j, slots) && j.states[|j.requests|].tasks.Keys == {PARENT, 2}
  {
    j := ParentReached();
    slots := [Slot(2, 1024)];
    j := ChildReached(j, [], 2, slots);
  }

  lemma TwoChildren() returns (j: Journey, slots: seq<Slot>)
    ensures slots == [Slot(2, 1024), Slot(3, 2048)] && Reached(j, slots) && j.states[|j.requests|].tasks.Keys == {PARENT, 2, 3}
  {
    var fewer;
    j, fewer := OneChild();
    slots := [Slot(2, 1024), Slot(3, 2048)];
    j := NextChild(j, fewer, 1024, 3, slots);
  }

  /** A parent and three subtasks. */
  lemma ThreeReached() returns (j: Journey)
    ensures Reached(j, Three(Slot(2, 1024), Slot(3, 2048), Slot(4, 3072)))
  {
    var slots;
    j, slots := TwoChildren();
    var all := Three(Slot(2, 1024), Slot(3, 2048), Slot(4, 3072));
    j := NextChild(j, slots, 2048, 4, all);
  }

  /** A child more, behind one that stands at p. */
  lemma NextChild(j: Journey, slots: seq<Slot>, p: nat, id: Id, more: seq<Slot>) returns (longer: Journey)
    requires Reached(j, slots) && id in {3, 4} && id !in j.states[|j.requests|].tasks
    requires |slots| > 0 && slots[|slots| - 1].position == p && p + 2 * POSITION_GAP <= POSITION_CEILING
    requires more == slots + [Slot(id, p + POSITION_GAP)]
    ensures Reached(longer, more)
    ensures longer.states[|longer.requests|].tasks.Keys == j.states[|j.requests|].tasks.Keys + {id}
  {
    longer := ChildReached(j, slots, id, more);
  }

  /** Each of them dragged to the end once. */
  lemma AllDragged(j: Journey, a: Slot, b: Slot, c: Slot) returns (longer: Journey)
    requires Reached(j, Three(a, b, c)) && a.id != b.id && a.id != c.id && b.id != c.id
    requires 0 <= c.position && c.position + 4 * POSITION_GAP <= POSITION_CEILING
    ensures Reached(longer, Three(Slot(a.id, c.position + 1024), Slot(b.id, c.position + 2048), Slot(c.id, c.position + 3072)))
  {
    var a1, b1 := Slot(a.id, c.position + 1024), Slot(b.id, c.position + 2048);
    longer := DragFirst(j, a, b, c);
    longer := DragFirst(longer, b, c, a1);
    longer := DragFirst(longer, c, a1, b1);
  }

  /** The one behind is dragged to the end, and the other is behind now. */
  lemma ClimbStep(j: Journey, first: Slot, x: Id, y: Id, p: int) returns (longer: Journey)
    requires Reached(j, Three(first, Slot(x, p), Slot(y, p + 1024)))
    requires x != y && x != first.id && y != first.id && 0 <= p && p + 3 * POSITION_GAP <= POSITION_CEILING
    ensures Reached(longer, Three(first, Slot(y, p + 1024), Slot(x, p + 2048)))
  {
    longer := DragMiddle(j, first, Slot(x, p), Slot(y, p + 1024));
  }

  /** Dragging the one behind to the end, again and again, climbs to the ceiling. */
  lemma {:induction false} Climb(j: Journey, first: Slot, x: Id, y: Id, p: int, k: nat) returns (longer: Journey, slots: seq<Slot>)
    requires Reached(j, Three(first, Slot(x, p), Slot(y, p + 1024)))
    requires x != y && x != first.id && y != first.id && 0 <= p && p + 1024 * k + 2 * POSITION_GAP <= POSITION_CEILING
    ensures Reached(longer, slots)
    ensures |slots| == 3 && slots[0] == first && slots[2].position == p + 1024 * k + 1024
    decreases k
  {
    if k == 0 {
      longer, slots := j, Three(first, Slot(x, p), Slot(y, p + 1024));
    } else {
      longer := ClimbStep(j, first, x, y, p);
      longer, slots := Climb(longer, first, y, x, p + 1024, k - 1);
    }
  }

  lemma ClimbReached(k: nat) returns (j: Journey, slots: seq<Slot>)
    requires 6144 + 1024 * k < POSITION_CEILING
    ensures Reached(j, slots)
    ensures |slots| == 3 && slots[0] == Slot(2, 4096) && slots[2].position == 6144 + 1024 * k
  {
    j := ThreeReached();
    j := AllDragged(j, Slot(2, 1024), Slot(3, 2048), Slot(4, 3072));
    j, slots := Climb(j, Slot(2, 4096), 3, 4, 5120, k);
  }

  // ---------- and the order breaks ----------

  /** All in order up to the last request, which leaves the scope sorted other
      than its plain list, and two of its tasks at one position. */
  ghost predicate BreaksAtLast(setup: Setup, requests: seq<Request>, scope: Scope) {
    && |requests| > 0 && StaysSmall(setup, requests)
    && (forall k :: 0 <= k < |requests| ==> ListedAt(setup, requests, k, scope) && StrictAt(setup, requests, k, scope))
    && !ListedAt(setup, requests, |requests|, scope)
    && !StrictAt(setup, requests, |requests|, scope)
  }

  lemma LateChildIsNotLast(slots: seq<Slot>)
    requires |slots| == 3 && slots[0] == Slot(2, 4096) && slots[2].position == POSITION_CEILING - POSITION_GAP
    ensures !EndsUpLast(slots, 5) && !EndIsFree(slots)
  {
    assert slots[0].position == (|slots| + 1) * POSITION_GAP;
  }

  lemma LateChildIsSmall(s: State)
    requires s.tasks.Keys <= {1, 2, 3, 4} && 5 !in s.tasks
    requires Next(s, SETUP, NewChild(5)).tasks == CreatedRows(s.tasks, 5, NewChild(5).draft)
    ensures SmallScopes(Next(s, SETUP, NewChild(5)).tasks)
  {
    var tasks := CreatedRows(s.tasks, 5, NewChild(5).draft);
    SubsetOfKeys(tasks.Keys, {1, 2, 3, 4, 5});
    assert |tasks| == |tasks.Keys|;
    FewTasksAreSmall(tasks);
  }

  lemma LateChildFits(s: State)
    requires TreeOK(s.tasks) && RowsOK(s.tasks) && Live(s.tasks, PARENT) && !s.tasks[PARENT].IsSubtask()
    requires s.tasks.Keys <= {1, 2, 3, 4}
    ensures Serve(s, SETUP, NewChild(5)).Ok? && SmallScopes(Next(s, SETUP, NewChild(5)).tasks)
  {
    ChildIsAccepted(s, 5);
    LateChildIsSmall(s);
  }

  lemma SmallToTheEnd(requests: seq<Request>, request: Request)
    requires StaysSmall(SETUP, requests)
    requires SmallScopes(Next(At(SETUP, requests, |requests|), SETUP, request).tasks)
    ensures StaysSmall(SETUP, requests + [request])
  {
    RunAppended(SETUP, requests, request);
    forall k | 0 <= k <= |requests| + 1
      ensures SmallScopes(At(SETUP, requests + [request], k).tasks)
    {
      if k <= |requests| {
        PrefixAt(SETUP, requests, request, k);
        assert SmallScopes(At(SETUP, requests, k).tasks);
      }
    }
  }

  lemma OrderedSoFar(j: Journey, request: Request, k: nat)
    requires Fine(j) && k <= |j.requests|
    ensures ListedAt(SETUP, j.requests + [request], k, SIBLINGS) && StrictAt(SETUP, j.requests + [request], k, SIBLINGS)
  {
    FineIsSteady(j);
    ListedUpTo(SETUP, j.requests, k, SIBLINGS);
    StrictUpTo(SETUP, j.requests, k, SIBLINGS);
    PrefixAt(SETUP, j.requests, request, k);
    assert (j.requests + [request])[..k] == j.requests[..k];
  }

  lemma LateChildJoins(j: Journey, slots: seq<Slot>)
    requires Reached(j, slots)
    ensures StaysSmall(SETUP, j.requests + [NewChild(5)])
    ensures var s := At(SETUP, j.requests, |j.requests|);
            s == j.states[|j.requests|] && Serve(s, SETUP, NewChild(5)).Ok?
  {
    FineIsTidy(j);
    FineIsSteady(j);
    FineIsRun(j, |j.requests|);
    LateChildFits(j.states[|j.requests|]);
    SmallToTheEnd(j.requests, NewChild(5));
  }

  lemma LateChildFindsNoPlace(j: Journey, slots: seq<Slot>)
    requires Reached(j, slots) && !EndsUpLast(slots, 5) && !EndIsFree(slots)
    ensures var longer := j.requests + [NewChild(5)];
            !InOrderAt(SETUP, longer, |j.requests|, SIBLINGS) && !ApartAt(SETUP, longer, |j.requests|, SIBLINGS)
  {
    LateChildJoins(j, slots);
    PrefixAt(SETUP, j.requests, NewChild(5), |j.requests|);
  }

  lemma LateChildBreaks(j: Journey, slots: seq<Slot>)
    requires Reached(j, slots) && !EndsUpLast(slots, 5) && !EndIsFree(slots)
    ensures BreaksAtLast(SETUP, j.requests + [NewChild(5)], SIBLINGS)
  {
    var n, longer := |j.requests|, j.requests + [NewChild(5)];
    LateChildJoins(j, slots);
    LateChildFindsNoPlace(j, slots);
    forall k | 0 <= k <= n
      ensures ListedAt(SETUP, longer, k, SIBLINGS) && StrictAt(SETUP, longer, k, SIBLINGS)
    {
      OrderedSoFar(j, NewChild(5), k);
    }
    ListedStep(SETUP, longer, n, SIBLINGS);
    StrictStep(SETUP, longer, n, SIBLINGS);
  }

  /** The promise that a new subtask joins the end of its siblings, at a place of
      its own, is broken by a run of an account from its beginning. */
  lemma OrderBreaksInARun()
    ensures exists setup, requests, scope :: BreaksAtLast(setup, requests, scope)
  {
    var j, slots := ClimbReached(0x10_0000 - 7);
    LateChildIsNotLast(slots);
    LateChildBreaks(j, slots);
  }
}
