/** What one accepted request leaves behind, field by field: the stamp of a
    completion, what a new task carries, where a move or a promotion ends, the
    entries written and the counters moved. */
module BoardEffects {
  import opened Types
  import opened Position
  import opened Tasks
  import opened Scopes
  import opened Progression
  import opened Board
  import opened BoardInvariants
  import opened BoardRequests
  import opened BoardRemovals
  import opened BoardMoves
  import opened BoardOrderRuns

  // ---------- completing ----------

  /** The quadrant a task is judged by: its own, or its parent's. */
  function JudgedBy(tasks: Rows, id: Id): Option<Quadrant>
    requires id in tasks
  {
    var t := tasks[id];
    if t.parent.None? then t.quadrant
    else if t.parent.value in tasks then tasks[t.parent.value].quadrant
    else None
  }

  /** What a completion pays for a task or a subtask of a quadrant. */
  function Price(quadrant: Quadrant, isSubtask: bool): int {
    match quadrant
    case ImportantUrgent => if isSubtask then 18 else 50
    case ImportantNotUrgent => if isSubtask then 12 else 35
    case NotImportantUrgent => if isSubtask then 7 else 20
    case NotImportantNotUrgent => if isSubtask then 4 else 10
  }

  lemma PriceIsReward(quadrant: Quadrant, isSubtask: bool)
    ensures Reward(quadrant, isSubtask) == Price(quadrant, isSubtask)
  {
    match quadrant
    case ImportantUrgent =>
    case ImportantNotUrgent =>
    case NotImportantUrgent =>
    case NotImportantNotUrgent =>
  }

  /** The same task in the same place, edited in nothing but its completion. */
  ghost predicate SamePaper(before: Task, after: Task) {
    && after.parent == before.parent && after.quadrant == before.quadrant && after.position == before.position
    && after.deadline == before.deadline && after.deadlineHasTime == before.deadlineHasTime && after.deletedAt == before.deletedAt
  }

  /** Completed now, in this way, at this price, the price of this quadrant. */
  ghost predicate Stamped(before: Task, after: Task, now: int, via: Via, quadrant: Quadrant, xp: int) {
    && SamePaper(before, after)
    && after.status == Completed
    && after.completedAt == Some(now)
    && after.completedVia == Some(via)
    && after.quadrantAtCompletion == Some(quadrant)
    && after.xpAwarded == Some(xp)
  }

  /** The open subtasks that go along with a task. */
  ghost function OpenUnder(tasks: Rows, id: Id): set<Id> {
    set c | c in tasks && tasks[c].deletedAt.None? && tasks[c].parent == Some(id) && tasks[c].status == Active
  }

  lemma JudgedQuadrant(tasks: Rows, id: Id)
    requires TreeOK(tasks) && Live(tasks, id)
    ensures JudgedBy(tasks, id).Some? && ResolveQuadrant(tasks, tasks[id]) == Ok(JudgedBy(tasks, id).value)
  {
    assert RowPlaced(tasks, id);
    if tasks[id].parent.Some? {
      assert RowPlaced(tasks, tasks[id].parent.value);
    }
  }

  lemma RowsAreStamped(tasks: Rows, id: Id, quadrant: Quadrant, now: int)
    requires TreeOK(tasks) && Live(tasks, id) && tasks[id].status == Active
    ensures var after := CompletedRows(tasks, id, quadrant, now);
            && after.Keys == tasks.Keys
            && Stamped(tasks[id], after[id], now, Direct, quadrant, Price(quadrant, tasks[id].parent.Some?))
            && (forall c :: c in OpenUnder(tasks, id) ==> Stamped(tasks[c], after[c], now, ParentCascade, quadrant, Price(quadrant, true)))
            && (forall k :: k in tasks && k != id && k !in OpenUnder(tasks, id) ==> after[k] == tasks[k])
  {
    PriceIsReward(quadrant, tasks[id].parent.Some?);
    PriceIsReward(quadrant, true);
    SubtaskHasNoSubtasks(tasks, id);
    forall c | c in OpenUnder(tasks, id)
      ensures c in Members(tasks, UnderParent(id))
    {
    }
  }

  /** Completing an open task stamps it with the time, DIRECT, the quadrant it
      is judged by and the price; its open subtasks with the same time and
      quadrant, PARENT_CASCADE and a subtask's price; and nothing else. */
  lemma CompleteStamps(s: State, setup: Setup, id: Id, now: int)
    requires Inv(s, setup) && Live(s.tasks, id) && s.tasks[id].status == Active
    ensures var r, quadrant := Serve(s, setup, DoComplete(id, now)), JudgedBy(s.tasks, id);
            && r.Ok? && quadrant.Some? && r.value.tasks.Keys == s.tasks.Keys
            && Stamped(s.tasks[id], r.value.tasks[id], now, Direct, quadrant.value, Price(quadrant.value, s.tasks[id].parent.Some?))
            && (forall c :: c in OpenUnder(s.tasks, id) ==>
                  Stamped(s.tasks[c], r.value.tasks[c], now, ParentCascade, quadrant.value, Price(quadrant.value, true)))
            && (forall k :: k in s.tasks && k != id && k !in OpenUnder(s.tasks, id) ==> r.value.tasks[k] == s.tasks[k])
  {
    CompletedAs(s, setup, id, now);
    RowsAreStamped(s.tasks, id, JudgedBy(s.tasks, id).value, now);
  }

  lemma CompletedAs(s: State, setup: Setup, id: Id, now: int)
    requires Inv(s, setup) && Live(s.tasks, id) && s.tasks[id].status == Active
    ensures var r := Serve(s, setup, DoComplete(id, now));
            && r.Ok? && JudgedBy(s.tasks, id).Some?
            && r.value.tasks == CompletedRows(s.tasks, id, JudgedBy(s.tasks, id).value, now)
  {
    JudgedQuadrant(s.tasks, id);
    CompletedBy(s, setup, id, now);
  }

  lemma CompletedBy(s: State, setup: Setup, id: Id, now: int)
    requires Inv(s, setup) && Live(s.tasks, id) && s.tasks[id].status == Active
    ensures var r, quadrant := Complete(s, setup, id, now), ResolveQuadrant(s.tasks, s.tasks[id]);
            r.Ok? && quadrant.Ok? && r.value.tasks == CompletedRows(s.tasks, id, quadrant.value, now)
  {
    CompleteOutcome(s, setup, id, now);
  }

  // ---------- creating ----------

  /** A new task: open and unpaid, where the draft says, due when the draft says. */
  ghost predicate MadeOf(t: Task, draft: Draft) {
    && t.deadline == draft.deadline
    && (t.deadlineHasTime <==> draft.deadline.Some? && draft.deadlineHasTime)
    && t.parent == draft.parent
    && (draft.parent.None? ==> draft.quadrant.Known? && t.quadrant == Some(draft.quadrant.quadrant))
    && (draft.parent.Some? ==> t.quadrant == None)
    && t.status == Active && t.completedAt == None && t.xpAwarded == None
    && t.quadrantAtCompletion == None && t.completedVia == None && t.deletedAt == None
  }

  lemma CreatedRowIsMade(tasks: Rows, id: Id, draft: Draft)
    requires id !in tasks && Placeable(tasks, draft)
    ensures id in CreatedRows(tasks, id, draft) && MadeOf(CreatedRows(tasks, id, draft)[id], draft)
  {
  }

  /** What an accepted creation adds is what its draft says. */
  lemma CreateMakesTheDraft(s: State, setup: Setup, id: Id, draft: Draft)
    requires Inv(s, setup) && Serve(s, setup, DoCreate(id, draft)).Ok?
    ensures var after := Serve(s, setup, DoCreate(id, draft)).value.tasks;
            id !in s.tasks && after.Keys == s.tasks.Keys + {id} && MadeOf(after[id], draft)
  {
    AcceptedDraft(s, setup, id, draft);
    CreatedRowIsMade(s.tasks, id, draft);
  }

  lemma AcceptedDraft(s: State, setup: Setup, id: Id, draft: Draft)
    requires TreeOK(s.tasks) && RowsOK(s.tasks) && Create(s, setup, id, draft).Ok?
    ensures id !in s.tasks && Placeable(s.tasks, draft)
    ensures Create(s, setup, id, draft).value.tasks == CreatedRows(s.tasks, id, draft)
  {
    if Acceptable(s, setup, id, draft) {
      CreateAccepts(s, setup, id, draft);
    } else {
      CreateRefuses(s, setup, id, draft);
    }
  }

  // ---------- moving and promoting ----------

  /** Nothing but the place changed. */
  ghost predicate SameButPlace(before: Task, after: Task) {
    && after.deadline == before.deadline && after.deadlineHasTime == before.deadlineHasTime
    && after.status == before.status && after.completedAt == before.completedAt && after.xpAwarded == before.xpAwarded
    && after.quadrantAtCompletion == before.quadrantAtCompletion && after.completedVia == before.completedVia
    && after.deletedAt == before.deletedAt
  }

  lemma PlacedRowIs(tasks: Rows, id: Id, scope: Scope, placed: Placed)
    requires TreeOK(tasks) && RowsOK(tasks) && Live(tasks, id) && MayPlace(tasks[id], scope)
    ensures var after := PlacedRows(tasks, id, scope, placed);
            && after.Keys == tasks.Keys && SameButPlace(tasks[id], after[id])
            && (match scope
                case InQuadrant(q) => after[id].quadrant == Some(q) && after[id].parent == None
                case UnderParent(p) => after[id].parent == Some(p) && after[id].quadrant == tasks[id].quadrant)
  {
    RepositionOnlyMoves(tasks, placed.placements);
  }

  /** The task is where the move says: in the quadrant named and under nobody,
      or still under the parent named. */
  ghost predicate IsWhereNamed(before: Task, after: Task, move: Move) {
    && SameButPlace(before, after)
    && (move.parent.None? <==> move.quadrant.Known?)
    && (move.quadrant.Known? ==> after.quadrant == Some(move.quadrant.quadrant) && after.parent == None)
    && (move.parent.Some? ==>
          && move.quadrant.Absent?
          && before.parent == move.parent && after.parent == move.parent && after.quadrant == before.quadrant)
  }

  lemma PlacedWhereNamed(s: State, after: Rows, id: Id, move: Move)
    requires Live(s.tasks, id) && Destination(s.tasks[id], move).Ok?
    requires PlacedIn(s, after, id, Destination(s.tasks[id], move).value, move.before, move.after)
    ensures after.Keys == s.tasks.Keys && IsWhereNamed(s.tasks[id], after[id], move)
  {
    var scope := Destination(s.tasks[id], move).value;
    var rest := Removed(Listing(s.tasks, scope), id);
    PlacedRowIs(s.tasks, id, scope, PlaceAt(rest, TargetIndex(rest, move.before, move.after).value));
  }

  lemma MovedWhileOpen(s: State, id: Id, move: Move)
    requires MoveTask(s, id, move).Ok?
    ensures s.tasks[id].status == Active
  {
  }

  /** An accepted move names one destination, and that is where the task is. */
  lemma MoveGoesWhereNamed(s: State, setup: Setup, id: Id, move: Move)
    requires Inv(s, setup) && Serve(s, setup, DoMove(id, move)).Ok?
    ensures var after := Serve(s, setup, DoMove(id, move)).value.tasks;
            && Live(s.tasks, id) && s.tasks[id].status == Active
            && after.Keys == s.tasks.Keys && IsWhereNamed(s.tasks[id], after[id], move)
  {
    MovedRowsAre(s, setup, id, move);
    MovedWhileOpen(s, id, move);
    PlacedWhereNamed(s, MoveTask(s, id, move).value.tasks, id, move);
  }

  /** Under nobody, in the quadrant asked for, or in the parent's when none was. */
  ghost predicate IsWhereAsked(tasks: Rows, id: Id, after: Task, asked: QuadrantArg)
    requires id in tasks
  {
    && SameButPlace(tasks[id], after)
    && tasks[id].parent.Some? && tasks[id].parent.value in tasks
    && after.parent == None && after.quadrant.Some?
    && match asked
       case Known(q) => after.quadrant == Some(q)
       case Absent => after.quadrant == tasks[tasks[id].parent.value].quadrant
       case Unknown => false
  }

  lemma PlacedWhereAsked(s: State, after: Rows, id: Id, asked: QuadrantArg)
    requires Live(s.tasks, id) && s.tasks[id].IsSubtask() && PromotionQuadrant(s.tasks, s.tasks[id], asked).Ok?
    requires PlacedIn(s, after, id, InQuadrant(PromotionQuadrant(s.tasks, s.tasks[id], asked).value), None, None)
    ensures after.Keys == s.tasks.Keys && IsWhereAsked(s.tasks, id, after[id], asked)
  {
    assert RowPlaced(s.tasks, id);
    JudgedQuadrant(s.tasks, id);
    var scope := InQuadrant(PromotionQuadrant(s.tasks, s.tasks[id], asked).value);
    var rest := Removed(Listing(s.tasks, scope), id);
    PlacedRowIs(s.tasks, id, scope, PlaceAt(rest, |rest|));
  }

  /** An accepted promotion takes a subtask where it was asked to go. */
  lemma PromoteGoesWhereAsked(s: State, setup: Setup, id: Id, asked: QuadrantArg)
    requires Inv(s, setup) && Serve(s, setup, DoPromote(id, asked)).Ok?
    ensures var after := Serve(s, setup, DoPromote(id, asked)).value.tasks;
            && Live(s.tasks, id) && after.Keys == s.tasks.Keys && IsWhereAsked(s.tasks, id, after[id], asked)
  {
    PromotedRowsAre(s, setup, id, asked);
    PlacedWhereAsked(s, Promote(s, id, asked).value.tasks, id, asked);
  }
}
