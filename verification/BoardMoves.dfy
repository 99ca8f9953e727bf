/** Creating, editing, moving and promoting: requests that change where a task
    is, and none of what it earned. */
module BoardMoves {
  import opened Types
  import opened Position
  import opened Tasks
  import opened Scopes
  import opened Ledger
  import opened Progression
  import opened Board
  import opened BoardInvariants
  import opened BoardRequests

  /** Two rows that differ at most in where they stand. */
  ghost predicate SameWork(before: Task, after: Task) {
    after == before.(parent := after.parent, quadrant := after.quadrant, position := after.position)
  }

  ghost predicate OnlyMoved(before: Rows, after: Rows) {
    before.Keys == after.Keys && forall id :: id in before ==> SameWork(before[id], after[id])
  }

  lemma OnlyMovedKeepsBooks(w: Work, stats: Stats, after: Rows)
    requires Books(w, stats, {}) && OnlyMoved(w.tasks, after)
    ensures Books(w.(tasks := after), stats, {})
  {
    assert LiveCompleted(after) == LiveCompleted(w.tasks);
    forall id | id in after
      ensures SumFor(w.ledger, id) == Paid(after, {}, id)
    {
      assert SameWork(w.tasks[id], after[id]);
      assert Paid(w.tasks, {}, id) == Paid(after, {}, id);
    }
  }

  lemma OnlyMovedKeepsRows(before: Rows, after: Rows)
    requires RowsOK(before) && OnlyMoved(before, after)
    ensures RowsOK(after)
  {
    forall id | id in after
      ensures RowOK(after[id])
    {
      assert SameWork(before[id], after[id]) && RowOK(before[id]);
    }
  }

  lemma MoveKeepsInv(s: State, setup: Setup, after: Rows)
    requires Inv(s, setup) && OnlyMoved(s.tasks, after) && TreeOK(after) && SameFamily(s.tasks, after)
    ensures Inv(s.(tasks := after), setup)
  {
    OnlyMovedKeepsBooks(Begin(s), s.stats, after);
    OnlyMovedKeepsRows(s.tasks, after);
    LinksFollowFamily(s.tasks, after, s.links);
  }

  // ---------- placing one row ----------

  lemma RepositionOnlyMoves(tasks: Rows, placements: seq<Slot>)
    requires TreeOK(tasks)
    ensures OnlyMoved(tasks, Reposition(tasks, placements))
    ensures TreeOK(Reposition(tasks, placements))
    ensures forall id :: id in tasks ==>
      Reposition(tasks, placements)[id].parent == tasks[id].parent
      && Reposition(tasks, placements)[id].quadrant == tasks[id].quadrant
  {
    var after := Reposition(tasks, placements);
    forall id | id in after
      ensures RowPlaced(after, id)
    {
      assert RowPlaced(tasks, id);
    }
  }

  /** The row as the move writes it. */
  function MovedRow(t: Task, scope: Scope, position: int): Task {
    match scope
    case InQuadrant(q) => t.(parent := None, quadrant := Some(q), position := position)
    case UnderParent(_) => t.(position := position)
  }

  /** A task may be placed in any quadrant, but only under the parent it has. */
  predicate MayPlace(t: Task, scope: Scope) {
    scope.InQuadrant? || t.parent == Some(scope.parent)
  }

  lemma MovedRowFits(tasks: Rows, id: Id, scope: Scope, position: int)
    requires TreeOK(tasks) && id in tasks && MayPlace(tasks[id], scope)
    ensures var row := MovedRow(tasks[id], scope, position);
            && (RowsOK(tasks) ==> Validate(id, row) && Storable(tasks, id, row))
            && TreeOK(tasks[id := row])
  {
    var row := MovedRow(tasks[id], scope, position);
    assert RowPlaced(tasks, id);
    forall other | other in tasks
      ensures RowPlaced(tasks[id := row], other)
      ensures tasks[other].parent == Some(id) ==> tasks[id].parent.None?
    {
      assert RowPlaced(tasks, other);
    }
  }

  ghost function PlacedRows(tasks: Rows, id: Id, scope: Scope, placed: Placed): Rows
    requires id in tasks
  {
    Reposition(tasks, placed.placements)[id := MovedRow(tasks[id], scope, placed.position)]
  }

  /** Placing a row can only fail on the neighbour it names. */
  lemma PlaceRowOutcome(tasks: Rows, id: Id, scope: Scope, before: Option<Id>, after: Option<Id>)
    requires TreeOK(tasks) && RowsOK(tasks) && Live(tasks, id) && MayPlace(tasks[id], scope)
    ensures var placed, r := Placing(Removed(Listing(tasks, scope), id), before, after), PlaceRow(tasks, id, scope, before, after);
            if placed.Err? then r == Err(placed.code) else r == Ok(PlacedRows(tasks, id, scope, placed.value))
  {
    var placed := Placing(Removed(Listing(tasks, scope), id), before, after);
    if placed.Ok? {
      var moved := Reposition(tasks, placed.value.placements);
      RepositionOnlyMoves(tasks, placed.value.placements);
      OnlyMovedKeepsRows(tasks, moved);
      MovedRowFits(tasks, id, scope, placed.value.position);
      MovedRowFits(moved, id, scope, placed.value.position);
      StorableIgnoresPosition(moved, id, MovedRow(moved[id], scope, placed.value.position),
                              MovedRow(tasks[id], scope, placed.value.position));
    }
  }

  lemma StorableIgnoresPosition(tasks: Rows, id: Id, a: Task, b: Task)
    requires Storable(tasks, id, a) && b == a.(position := b.position)
    ensures Storable(tasks, id, b)
  {
  }

  lemma PlacedRowsOnlyMove(tasks: Rows, id: Id, scope: Scope, placed: Placed)
    requires TreeOK(tasks) && RowsOK(tasks) && Live(tasks, id) && MayPlace(tasks[id], scope)
    ensures var after := PlacedRows(tasks, id, scope, placed);
            OnlyMoved(tasks, after) && TreeOK(after) && SameFamily(tasks, after)
  {
    var moved := Reposition(tasks, placed.placements);
    RepositionOnlyMoves(tasks, placed.placements);
    MovedRowFits(moved, id, scope, placed.position);
    assert MovedRow(moved[id], scope, placed.position) == MovedRow(tasks[id], scope, placed.position);
  }

  // ---------- MoveTask and Promote ----------

  lemma MoveOutcome(s: State, setup: Setup, id: Id, move: Move)
    requires Inv(s, setup)
    ensures var r := MoveTask(s, id, move);
      if !Live(s.tasks, id) then r == Err(TaskNotFound)
      else if s.tasks[id].IsCompleted() then r == Err(CompletedTaskFrozen)
      else
        var scope := Destination(s.tasks[id], move);
        if scope.Err? then r == Err(scope.code)
        else
          var placed := Placing(Removed(Listing(s.tasks, scope.value), id), move.before, move.after);
          if placed.Err? then r == Err(placed.code)
          else r == Ok(s.(tasks := PlacedRows(s.tasks, id, scope.value, placed.value))) && Inv(r.value, setup)
  {
    if Live(s.tasks, id) && !s.tasks[id].IsCompleted() {
      var scope := Destination(s.tasks[id], move);
      if scope.Ok? {
        PlaceRowOutcome(s.tasks, id, scope.value, move.before, move.after);
        var placed := Placing(Removed(Listing(s.tasks, scope.value), id), move.before, move.after);
        if placed.Ok? {
          PlacedRowsOnlyMove(s.tasks, id, scope.value, placed.value);
          MoveKeepsInv(s, setup, PlacedRows(s.tasks, id, scope.value, placed.value));
        }
      }
    }
  }

  /** Promotion never fails for a subtask whose quadrant is named or left to its
      parent: it becomes a task at the end of that quadrant, its snapshot untouched. */
  lemma PromoteOutcome(s: State, setup: Setup, id: Id, asked: QuadrantArg)
    requires Inv(s, setup)
    ensures var r := Promote(s, id, asked);
      if !Live(s.tasks, id) then r == Err(TaskNotFound)
      else if !s.tasks[id].IsSubtask() then r == Err(NotASubtask)
      else if asked.Unknown? then r == Err(ValidationFailed)
      else
        var quadrant := PromotionQuadrant(s.tasks, s.tasks[id], asked);
        && quadrant.Ok? && r.Ok? && Inv(r.value, setup)
        && var scope := InQuadrant(quadrant.value);
           var placed := Placing(Removed(Listing(s.tasks, scope), id), None, None);
           placed.Ok? && r == Ok(s.(tasks := PlacedRows(s.tasks, id, scope, placed.value)))
  {
    if Live(s.tasks, id) && s.tasks[id].IsSubtask() && !asked.Unknown? {
      QuadrantResolves(s.tasks, id);
      var scope := InQuadrant(PromotionQuadrant(s.tasks, s.tasks[id], asked).value);
      PlaceRowOutcome(s.tasks, id, scope, None, None);
      var placed := Placing(Removed(Listing(s.tasks, scope), id), None, None).value;
      PlacedRowsOnlyMove(s.tasks, id, scope, placed);
      MoveKeepsInv(s, setup, PlacedRows(s.tasks, id, scope, placed));
    }
  }

  // ---------- Create ----------

  lemma {:induction false} NoEntriesNoSum(ledger: seq<Entry>, tasks: Rows, id: Id)
    requires EntriesKnown(tasks, ledger) && id !in tasks
    ensures SumFor(ledger, id) == 0
  {
    if |ledger| > 0 {
      assert ledger[|ledger| - 1].task in tasks;
      assert EntriesKnown(tasks, ledger[..|ledger| - 1]);
      NoEntriesNoSum(ledger[..|ledger| - 1], tasks, id);
    }
  }

  lemma InsertKeepsBooks(w: Work, stats: Stats, id: Id, row: Task)
    requires Books(w, stats, {}) && id !in w.tasks && !row.IsCompleted()
    ensures Books(w.(tasks := w.tasks[id := row]), stats, {})
  {
    NoEntriesNoSum(w.ledger, w.tasks, id);
    var after := w.tasks[id := row];
    assert LiveCompleted(after) == LiveCompleted(w.tasks);
    forall i | i in after
      ensures SumFor(w.ledger, i) == Paid(after, {}, i)
    {
      assert i in w.tasks ==> Paid(w.tasks, {}, i) == Paid(after, {}, i);
    }
  }

  /** What a new row must be: open, in order, and placed under nothing but a live task. */
  ghost predicate Newborn(tasks: Rows, id: Id, row: Task) {
    && id != NIL && !row.IsCompleted() && RowOK(row) && WellPlaced(id, row) && row.deletedAt.None?
    && (row.parent.Some? ==> Live(tasks, row.parent.value) && tasks[row.parent.value].parent.None?)
  }

  lemma InsertKeepsTree(tasks: Rows, id: Id, row: Task)
    requires TreeOK(tasks) && RowsOK(tasks) && id !in tasks && Newborn(tasks, id, row)
    ensures Storable(tasks, id, row)
    ensures TreeOK(tasks[id := row]) && RowsOK(tasks[id := row]) && SameFamily(tasks, tasks[id := row])
  {
    forall other | other in tasks
      ensures RowPlaced(tasks[id := row], other) && tasks[other].parent != Some(id)
    {
      assert RowPlaced(tasks, other);
    }
    assert RowPlaced(tasks[id := row], id);
  }

  /** The draft names a live top-level parent, or one of the quadrants. */
  predicate Placeable(tasks: Rows, draft: Draft) {
    if draft.parent.Some? then Live(tasks, draft.parent.value) && !tasks[draft.parent.value].IsSubtask()
    else draft.quadrant.Known?
  }

  /** What must be true of a draft for a task to be made of it. */
  predicate Acceptable(s: State, setup: Setup, id: Id, draft: Draft) {
    && (ActiveTaskLimit(setup.plan).Some? ==> CountActive(s.tasks) < ActiveTaskLimit(setup.plan).value)
    && Placeable(s.tasks, draft)
    && draft.wellFormed && id != NIL && id !in s.tasks
  }

  function DraftScope(draft: Draft): Scope
    requires draft.parent.Some? || draft.quadrant.Known?
  {
    if draft.parent.Some? then UnderParent(draft.parent.value) else InQuadrant(draft.quadrant.quadrant)
  }

  /** The place at the end of a scope; it always exists. */
  ghost function EndOf(tasks: Rows, scope: Scope): Placed {
    PlaceAt(Listing(tasks, scope), |Listing(tasks, scope)|)
  }

  function DraftRow(draft: Draft, position: int): Task
    requires draft.parent.Some? || draft.quadrant.Known?
  {
    ApplyDraft(if draft.parent.Some? then Task(draft.parent, None, position, None, false, Active, None, None, None, None, None)
               else NewRegular(draft.quadrant.quadrant, position), draft)
  }

  /** The rows with the new one among them. A quadrant is renumbered when it has
      to be; a parent's other subtasks never are. */
  ghost function CreatedRows(tasks: Rows, id: Id, draft: Draft): Rows
    requires draft.parent.Some? || draft.quadrant.Known?
  {
    var placed := EndOf(tasks, DraftScope(draft));
    (if draft.parent.Some? then tasks else Reposition(tasks, placed.placements))[id := DraftRow(draft, placed.position)]
  }

  lemma DraftBecomesRow(tasks: Rows, draft: Draft)
    requires Placeable(tasks, draft)
    ensures var placed := EndOf(tasks, DraftScope(draft));
            DraftToTask(tasks, draft)
            == Ok((if draft.parent.Some? then tasks else Reposition(tasks, placed.placements), DraftRow(draft, placed.position)))
  {
    var scope := DraftScope(draft);
    assert Placing(Listing(tasks, scope), None, None) == Ok(EndOf(tasks, scope));
  }

  lemma DraftRowIsNewborn(tasks: Rows, id: Id, draft: Draft, position: int)
    requires Placeable(tasks, draft) && id != NIL && id !in tasks
    ensures Newborn(tasks, id, DraftRow(draft, position)) && Validate(id, DraftRow(draft, position))
  {
  }

  lemma CreateFits(tasks: Rows, id: Id, draft: Draft)
    requires TreeOK(tasks) && RowsOK(tasks) && id != NIL && id !in tasks && Placeable(tasks, draft)
    ensures var placed := EndOf(tasks, DraftScope(draft));
            var base, row := if draft.parent.Some? then tasks else Reposition(tasks, placed.placements), DraftRow(draft, placed.position);
            && OnlyMoved(tasks, base)
            && Validate(id, row) && !row.IsCompleted()
            && InsertRow(base, id, row) == Ok(CreatedRows(tasks, id, draft))
            && TreeOK(CreatedRows(tasks, id, draft)) && RowsOK(CreatedRows(tasks, id, draft))
            && SameFamily(tasks, CreatedRows(tasks, id, draft))
  {
    var placed := EndOf(tasks, DraftScope(draft));
    var base, row := if draft.parent.Some? then tasks else Reposition(tasks, placed.placements), DraftRow(draft, placed.position);
    RepositionOnlyMoves(tasks, placed.placements);
    OnlyMovedKeepsRows(tasks, base);
    DraftRowIsNewborn(base, id, draft, placed.position);
    InsertKeepsTree(base, id, row);
  }

  predicate PlanIsFull(s: State, setup: Setup) {
    ActiveTaskLimit(setup.plan).Some? && CountActive(s.tasks) >= ActiveTaskLimit(setup.plan).value
  }

  /** Why no task can be made of a draft: the parent, or the quadrant. */
  predicate Misplaced(tasks: Rows, draft: Draft, code: Code) {
    match draft.parent
    case Some(p) => if Live(tasks, p) then code == NestingNotAllowed && tasks[p].IsSubtask() else code == TaskNotFound
    case None => code == ValidationFailed && !draft.quadrant.Known?
  }

  lemma DraftIsPlaceable(tasks: Rows, draft: Draft)
    ensures var r := DraftToTask(tasks, draft);
            && (r.Ok? <==> Placeable(tasks, draft))
            && (forall code :: r == Err(code) <==> Misplaced(tasks, draft, code))
  {
    if Placeable(tasks, draft) {
      DraftBecomesRow(tasks, draft);
    }
  }

  /** Which refusal answers what. */
  predicate CreateRefusedFor(s: State, setup: Setup, id: Id, draft: Draft, code: Code) {
    if PlanIsFull(s, setup) then code == QuotaLimitReached
    else if Placeable(s.tasks, draft) then code == ValidationFailed && (!draft.wellFormed || id == NIL || id in s.tasks)
    else Misplaced(s.tasks, draft, code)
  }

  lemma CreatedKeepsInv(s: State, setup: Setup, id: Id, draft: Draft)
    requires Inv(s, setup) && Placeable(s.tasks, draft) && id != NIL && id !in s.tasks
    ensures Inv(Settle(s, Work(CreatedRows(s.tasks, id, draft), s.ledger, NO_DELTA.(tasksCreated := 1))), setup)
  {
    CreateFits(s.tasks, id, draft);
    var placed := EndOf(s.tasks, DraftScope(draft));
    var base := if draft.parent.Some? then s.tasks else Reposition(s.tasks, placed.placements);
    OnlyMovedKeepsBooks(Begin(s), s.stats, base);
    InsertKeepsBooks(Begin(s).(tasks := base), s.stats, id, DraftRow(draft, placed.position));
    SettleKeepsInv(s, setup, Work(CreatedRows(s.tasks, id, draft), s.ledger, NO_DELTA.(tasksCreated := 1)));
  }

  lemma CreateAccepts(s: State, setup: Setup, id: Id, draft: Draft)
    requires TreeOK(s.tasks) && RowsOK(s.tasks) && Acceptable(s, setup, id, draft)
    ensures Create(s, setup, id, draft)
            == Ok(Settle(s, Work(CreatedRows(s.tasks, id, draft), s.ledger, NO_DELTA.(tasksCreated := 1))))
  {
    CreateFits(s.tasks, id, draft);
    DraftBecomesRow(s.tasks, draft);
  }

  lemma CreateRefuses(s: State, setup: Setup, id: Id, draft: Draft)
    requires !Acceptable(s, setup, id, draft)
    ensures var r := Create(s, setup, id, draft);
            r.Err? && CreateRefusedFor(s, setup, id, draft, r.code)
  {
    DraftIsPlaceable(s.tasks, draft);
    if Placeable(s.tasks, draft) {
      DraftBecomesRow(s.tasks, draft);
    }
  }

  /** Only one refusal applies. */
  lemma OneRefusal(s: State, setup: Setup, id: Id, draft: Draft, a: Code, b: Code)
    requires CreateRefusedFor(s, setup, id, draft, a) && CreateRefusedFor(s, setup, id, draft, b)
    ensures a == b
  {
  }

  lemma CreatedState(s: State, tasks: Rows)
    requires s.stats.level == LevelForXP(s.stats.lifetimeXP)
    ensures Settle(s, Work(tasks, s.ledger, NO_DELTA.(tasksCreated := 1)))
            == s.(tasks := tasks, stats := s.stats.(tasksCreated := s.stats.tasksCreated + 1))
  {
  }

  /** A draft is made into a task exactly when it is acceptable, and then only
      the new row, the renumbered positions and the counter change; otherwise
      it answers the one code that applies. */
  lemma CreateOutcome(s: State, setup: Setup, id: Id, draft: Draft)
    requires Inv(s, setup)
    ensures var r := Create(s, setup, id, draft);
            if Acceptable(s, setup, id, draft) then
              && r.Ok? && Inv(r.value, setup)
              && r.value == s.(tasks := CreatedRows(s.tasks, id, draft), stats := s.stats.(tasksCreated := s.stats.tasksCreated + 1))
            else r.Err? && forall code :: CreateRefusedFor(s, setup, id, draft, code) <==> r.code == code
  {
    if Acceptable(s, setup, id, draft) {
      CreateAccepts(s, setup, id, draft);
      CreatedKeepsInv(s, setup, id, draft);
      CreatedState(s, CreatedRows(s.tasks, id, draft));
    } else {
      CreateRefuses(s, setup, id, draft);
      var answered := Create(s, setup, id, draft).code;
      forall code | CreateRefusedFor(s, setup, id, draft, code)
        ensures code == answered
      {
        OneRefusal(s, setup, id, draft, code, answered);
      }
    }
  }

  // ---------- Update ----------

  lemma EditFits(tasks: Rows, id: Id, patch: Patch)
    requires TreeOK(tasks) && RowsOK(tasks) && Live(tasks, id) && !tasks[id].IsCompleted()
    ensures var row := ApplyPatch(tasks[id], patch);
            && Validate(id, row) && UpdateRow(tasks, id, row) == Ok(tasks[id := row])
            && TreeOK(tasks[id := row]) && RowsOK(tasks[id := row]) && SameFamily(tasks, tasks[id := row])
  {
    var row := ApplyPatch(tasks[id], patch);
    assert RowPlaced(tasks, id);
    RewriteStorable(tasks, id, row);
    RewriteKeepsTree(tasks, id, row);
    RewriteKeepsRows(tasks, id, row);
  }

  /** What an edit makes of a deadline: cleared, replaced or kept; the time of
      day is only ever kept or set, and never outlives the deadline. */
  lemma EditedDeadline(t: Task, patch: Patch)
    ensures var e := ApplyPatch(t, patch);
            && e == t.(deadline := e.deadline, deadlineHasTime := e.deadlineHasTime)
            && e.deadline == (if patch.clearDeadline then None else if patch.deadline.Some? then patch.deadline else t.deadline)
            && (e.deadline.Some? && patch.deadlineHasTime.Some? ==> e.deadlineHasTime == patch.deadlineHasTime.value)
            && (!patch.clearDeadline && patch.deadlineHasTime.None? ==> e.deadlineHasTime == t.deadlineHasTime)
            && ((t.deadlineHasTime ==> t.deadline.Some?) ==> (e.deadlineHasTime ==> e.deadline.Some?))
  {
  }

  /** An edit changes the deadline fields of one open task and nothing else. */
  lemma UpdateOutcome(s: State, setup: Setup, id: Id, patch: Patch)
    requires Inv(s, setup)
    ensures var r := Update(s, id, patch);
      if !Live(s.tasks, id) then r == Err(TaskNotFound)
      else if s.tasks[id].IsCompleted() then r == Err(CompletedTaskFrozen)
      else if !patch.wellFormed then r == Err(ValidationFailed)
      else
        && r == Ok(s.(tasks := s.tasks[id := ApplyPatch(s.tasks[id], patch)])) && Inv(r.value, setup)
  {
    if Live(s.tasks, id) && !s.tasks[id].IsCompleted() && patch.wellFormed {
      UpdateAccepts(s, setup, id, patch);
    }
  }

  lemma UpdateAccepts(s: State, setup: Setup, id: Id, patch: Patch)
    requires Inv(s, setup) && Live(s.tasks, id) && !s.tasks[id].IsCompleted() && patch.wellFormed
    ensures var next := s.(tasks := s.tasks[id := ApplyPatch(s.tasks[id], patch)]);
            Update(s, id, patch) == Ok(next) && Inv(next, setup)
  {
    EditFits(s.tasks, id, patch);
    UpdateSucceeds(s, id, patch);
    EditKeepsInv(s, setup, id, ApplyPatch(s.tasks[id], patch));
  }

  lemma UpdateSucceeds(s: State, id: Id, patch: Patch)
    requires Live(s.tasks, id) && !s.tasks[id].IsCompleted() && patch.wellFormed
    requires var row := ApplyPatch(s.tasks[id], patch);
             Validate(id, row) && UpdateRow(s.tasks, id, row) == Ok(s.tasks[id := row])
    ensures Update(s, id, patch) == Ok(s.(tasks := s.tasks[id := ApplyPatch(s.tasks[id], patch)]))
  {
  }

  lemma EditKeepsInv(s: State, setup: Setup, id: Id, row: Task)
    requires Inv(s, setup) && Live(s.tasks, id) && !s.tasks[id].IsCompleted() && !row.IsCompleted()
    requires var after := s.tasks[id := row]; TreeOK(after) && RowsOK(after) && SameFamily(s.tasks, after)
    ensures Inv(s.(tasks := s.tasks[id := row]), setup)
  {
    EditKeepsBooks(Begin(s), s.stats, id, row);
    LinksFollowFamily(s.tasks, s.tasks[id := row], s.links);
  }

  lemma EditKeepsBooks(w: Work, stats: Stats, id: Id, row: Task)
    requires Books(w, stats, {}) && Live(w.tasks, id) && !w.tasks[id].IsCompleted() && !row.IsCompleted()
    ensures Books(w.(tasks := w.tasks[id := row]), stats, {})
  {
    var after := w.tasks[id := row];
    assert LiveCompleted(after) == LiveCompleted(w.tasks);
    forall i | i in after
      ensures SumFor(w.ledger, i) == Paid(after, {}, i)
    {
      assert Paid(w.tasks, {}, i) == Paid(after, {}, i);
    }
  }
}
