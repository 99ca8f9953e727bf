/** The two completion counters one by one. Completing, reopening and deleting
    count a task by its present kind, and promotion counts nothing, so each
    counter is that of its own kind up to the finished subtasks promoted. */
module BoardCounters {
  import opened Types
  import opened Position
  import opened Tasks
  import opened Scopes
  import opened Board
  import opened BoardInvariants
  import opened BoardRemovals
  import opened BoardMoves
  import opened BoardLinks
  import opened BoardRuns
  import opened BoardOrderRuns
  import opened BoardEffects
  import opened BoardBooks
  import opened BoardAnswers

  predicate Done(t: Task) {
    t.deletedAt.None? && t.status == Completed
  }

  ghost function DoneTasks(tasks: Rows): set<Id> {
    set id | id in tasks && Done(tasks[id]) && tasks[id].parent.None?
  }

  ghost function DoneSubtasks(tasks: Rows): set<Id> {
    set id | id in tasks && Done(tasks[id]) && tasks[id].parent.Some?
  }

  /** An accepted promotion of a finished subtask. */
  ghost predicate PromotesFinished(s: State, setup: Setup, request: Request) {
    request.DoPromote? && Serve(s, setup, request).Ok? && request.id in s.tasks && s.tasks[request.id].status == Completed
  }

  /** How many finished subtasks were promoted in the run. */
  ghost function FinishedPromotions(setup: Setup, requests: seq<Request>): nat {
    if |requests| == 0 then 0
    else
      var earlier, last := requests[..|requests| - 1], requests[|requests| - 1];
      FinishedPromotions(setup, earlier) + (if PromotesFinished(Run(NEW_ACCOUNT, setup, earlier), setup, last) then 1 else 0)
  }

  // ---------- the rows ----------

  lemma TasksAfterComplete(before: Rows, after: Rows, id: Id)
    requires Live(before, id) && before[id].status == Active && after.Keys == before.Keys
    requires SamePaper(before[id], after[id]) && after[id].status == Completed
    requires forall c :: c in OpenUnder(before, id) ==> SamePaper(before[c], after[c])
    requires forall k :: k in before && k != id && k !in OpenUnder(before, id) ==> after[k] == before[k]
    ensures DoneTasks(after) == DoneTasks(before) + (if before[id].parent.None? then {id} else {}) && id !in DoneTasks(before)
  {
  }

  lemma TasksAfterReopen(before: Rows, after: Rows, id: Id)
    requires Live(before, id) && before[id].status == Completed
    requires id in after && after == before[id := after[id]] && BackToWork(before[id], after[id])
    ensures DoneTasks(after) == DoneTasks(before) - {id} && (id in DoneTasks(before) <==> before[id].parent.None?)
  {
  }

  lemma TasksAfterDelete(tasks: Rows, family: set<Id>, now: int)
    requires forall k :: k in family ==> Live(tasks, k)
    ensures |DoneTasks(DeletedRows(tasks, family, now))| == |DoneTasks(tasks)| - |DoneAmong(tasks, family, false)|
  {
    assert DoneTasks(DeletedRows(tasks, family, now)) == DoneTasks(tasks) - DoneAmong(tasks, family, false);
  }

  lemma CreateKeepsRow(tasks: Rows, id: Id, draft: Draft, k: Id)
    requires TreeOK(tasks) && id !in tasks && Placeable(tasks, draft) && k in tasks
    ensures var after := CreatedRows(tasks, id, draft);
            k in after && Done(after[k]) == Done(tasks[k]) && after[k].parent == tasks[k].parent
  {
    RepositionOnlyMoves(tasks, EndOf(tasks, DraftScope(draft)).placements);
  }

  lemma TasksAfterCreate(tasks: Rows, id: Id, draft: Draft)
    requires TreeOK(tasks) && id !in tasks && Placeable(tasks, draft)
    ensures DoneTasks(CreatedRows(tasks, id, draft)) == DoneTasks(tasks)
  {
    var after := CreatedRows(tasks, id, draft);
    CreatedRowIsMade(tasks, id, draft);
    forall k
      ensures k in DoneTasks(after) <==> k in DoneTasks(tasks)
    {
      if k in tasks {
        CreateKeepsRow(tasks, id, draft, k);
      }
    }
  }

  lemma PlacingKeepsRow(tasks: Rows, id: Id, scope: Scope, placed: Placed, k: Id)
    requires TreeOK(tasks) && id in tasks && k in tasks && k != id
    ensures var after := PlacedRows(tasks, id, scope, placed);
            k in after && Done(after[k]) == Done(tasks[k]) && after[k].parent == tasks[k].parent
  {
    RepositionOnlyMoves(tasks, placed.placements);
  }

  lemma TasksAfterPlacing(tasks: Rows, id: Id, scope: Scope, placed: Placed)
    requires TreeOK(tasks) && Live(tasks, id) && MayPlace(tasks[id], scope)
    ensures DoneTasks(PlacedRows(tasks, id, scope, placed))
            == DoneTasks(tasks) + (if tasks[id].status == Completed && scope.InQuadrant? then {id} else {})
  {
    var after := PlacedRows(tasks, id, scope, placed);
    assert after[id] == MovedRow(tasks[id], scope, placed.position);
    assert after.Keys == tasks.Keys;
    forall k | k in tasks && k != id
      ensures k in DoneTasks(after) <==> k in DoneTasks(tasks)
    {
      PlacingKeepsRow(tasks, id, scope, placed, k);
    }
  }

  lemma TasksAfterPlaced(s: State, after: Rows, id: Id, scope: Scope, before: Option<Id>, behind: Option<Id>)
    requires PlacedIn(s, after, id, scope, before, behind)
    ensures DoneTasks(after) == DoneTasks(s.tasks) + (if s.tasks[id].status == Completed && scope.InQuadrant? then {id} else {})
    ensures s.tasks[id].parent.Some? ==> id !in DoneTasks(s.tasks)
  {
    var rest := Removed(Listing(s.tasks, scope), id);
    TasksAfterPlacing(s.tasks, id, scope, PlaceAt(rest, TargetIndex(rest, before, behind).value));
  }

  // ---------- one request ----------

  /** How far the counter of tasks is behind the finished tasks. */
  ghost function Behind(s: State): int {
    |DoneTasks(s.tasks)| - s.stats.tasksCompleted
  }

  lemma CompleteKeepsUp(s: State, setup: Setup, id: Id, now: int)
    requires Inv(s, setup) && Serve(s, setup, DoComplete(id, now)).Ok?
    ensures Behind(Serve(s, setup, DoComplete(id, now)).value) == Behind(s)
  {
    CompleteAnswers(s, setup, id, now);
    CompleteStamps(s, setup, id, now);
    CompletePays(s, setup, id, now);
    TasksAfterComplete(s.tasks, Serve(s, setup, DoComplete(id, now)).value.tasks, id);
  }

  lemma ReopenKeepsUp(s: State, setup: Setup, id: Id)
    requires Inv(s, setup) && Serve(s, setup, DoReopen(id)).Ok?
    ensures Behind(Serve(s, setup, DoReopen(id)).value) == Behind(s)
  {
    ReopenAnswers(s, setup, id);
    ReopenTakesBack(s, setup, id);
    TasksAfterReopen(s.tasks, Serve(s, setup, DoReopen(id)).value.tasks, id);
  }

  lemma DeleteKeepsUp(s: State, setup: Setup, id: Id, now: int)
    requires Inv(s, setup) && Serve(s, setup, DoDelete(id, now)).Ok?
    ensures Behind(Serve(s, setup, DoDelete(id, now)).value) == Behind(s)
  {
    DeleteUncounts(s, setup, id, now);
    DeleteLeaves(s, setup, id, now);
  }

  lemma DeleteUncounts(s: State, setup: Setup, id: Id, now: int)
    requires Inv(s, setup) && Serve(s, setup, DoDelete(id, now)).Ok?
    ensures Serve(s, setup, DoDelete(id, now)).value.stats.tasksCompleted
            == s.stats.tasksCompleted - |DoneAmong(s.tasks, Family(s.tasks, id), false)|
  {
    DeleteTakesBack(s, setup, id, now);
  }

  lemma DeleteLeaves(s: State, setup: Setup, id: Id, now: int)
    requires Inv(s, setup) && Delete(s, id, now).Ok?
    ensures |DoneTasks(Delete(s, id, now).value.tasks)|
            == |DoneTasks(s.tasks)| - |DoneAmong(s.tasks, Family(s.tasks, id), false)|
  {
    DeletedRowsAre(s, setup, id, now);
    DeletedWhileThere(s, id, now);
    TasksAfterDelete(s.tasks, Family(s.tasks, id), now);
  }

  lemma DeletedWhileThere(s: State, id: Id, now: int)
    requires Delete(s, id, now).Ok?
    ensures forall k :: k in Family(s.tasks, id) ==> Live(s.tasks, k)
  {
  }

  lemma CreateKeepsUp(s: State, setup: Setup, id: Id, draft: Draft)
    requires Inv(s, setup) && Serve(s, setup, DoCreate(id, draft)).Ok?
    ensures Behind(Serve(s, setup, DoCreate(id, draft)).value) == Behind(s)
  {
    AcceptedDraft(s, setup, id, draft);
    CreateCounts(s, setup, id, draft);
    TasksAfterCreate(s.tasks, id, draft);
  }

  lemma TasksAfterMove(s: State, setup: Setup, id: Id, move: Move)
    requires Inv(s, setup) && MoveTask(s, id, move).Ok?
    ensures DoneTasks(MoveTask(s, id, move).value.tasks) == DoneTasks(s.tasks)
  {
    MovedRowsAre(s, setup, id, move);
    MovedWhileOpen(s, id, move);
    TasksAfterPlaced(s, MoveTask(s, id, move).value.tasks, id, Destination(s.tasks[id], move).value, move.before, move.after);
  }

  lemma MoveCountsNothing(s: State, id: Id, move: Move)
    ensures MoveTask(s, id, move).Ok? ==> MoveTask(s, id, move).value.stats == s.stats
  {
  }

  lemma MoveKeepsUp(s: State, setup: Setup, id: Id, move: Move)
    requires Inv(s, setup) && MoveTask(s, id, move).Ok?
    ensures Behind(MoveTask(s, id, move).value) == Behind(s)
  {
    TasksAfterMove(s, setup, id, move);
    MoveCountsNothing(s, id, move);
  }

  lemma TasksAfterPromote(s: State, setup: Setup, id: Id, asked: QuadrantArg)
    requires Inv(s, setup) && Promote(s, id, asked).Ok?
    ensures id in s.tasks
    ensures |DoneTasks(Promote(s, id, asked).value.tasks)|
            == |DoneTasks(s.tasks)| + (if s.tasks[id].status == Completed then 1 else 0)
  {
    PromotedRowsAre(s, setup, id, asked);
    TasksAfterPlaced(s, Promote(s, id, asked).value.tasks, id,
                     InQuadrant(PromotionQuadrant(s.tasks, s.tasks[id], asked).value), None, None);
  }

  lemma PromoteFallsBehind(s: State, setup: Setup, id: Id, asked: QuadrantArg)
    requires Inv(s, setup) && Promote(s, id, asked).Ok?
    ensures id in s.tasks
    ensures Behind(Promote(s, id, asked).value) == Behind(s) + (if s.tasks[id].status == Completed then 1 else 0)
  {
    TasksAfterPromote(s, setup, id, asked);
    PromotionCountsNothing(s, id, asked);
  }

  lemma UpdateKeepsUp(s: State, setup: Setup, id: Id, patch: Patch)
    requires Inv(s, setup) && Serve(s, setup, DoUpdate(id, patch)).Ok?
    ensures Behind(Serve(s, setup, DoUpdate(id, patch)).value) == Behind(s)
  {
    UpdateAnswers(s, setup, id, patch);
    assert DoneTasks(Serve(s, setup, DoUpdate(id, patch)).value.tasks) == DoneTasks(s.tasks);
  }

  lemma LinksKeepUp(s: State, setup: Setup, request: Request)
    requires request.DoLink? || request.DoRetype? || request.DoUnlink?
    requires Serve(s, setup, request).Ok?
    ensures Behind(Serve(s, setup, request).value) == Behind(s)
  {
    if request.DoLink? {
      CreateLinkDecides(s, setup, request.id, request.source, request.target, request.linkType);
    }
  }

  lemma ServeMovesBehind(s: State, setup: Setup, request: Request)
    requires Inv(s, setup) && Serve(s, setup, request).Ok?
    ensures Behind(Serve(s, setup, request).value) == Behind(s) + (if PromotesFinished(s, setup, request) then 1 else 0)
  {
    match request
    case DoCreate(id, draft) => CreateKeepsUp(s, setup, id, draft);
    case DoUpdate(id, patch) => UpdateKeepsUp(s, setup, id, patch);
    case DoComplete(id, now) => CompleteKeepsUp(s, setup, id, now);
    case DoReopen(id) => ReopenKeepsUp(s, setup, id);
    case DoDelete(id, now) => DeleteKeepsUp(s, setup, id, now);
    case DoMove(id, move) => MoveKeepsUp(s, setup, id, move);
    case DoPromote(id, asked) => PromoteFallsBehind(s, setup, id, asked);
    case _ => LinksKeepUp(s, setup, request);
  }

  // ---------- whole runs ----------

  lemma NextMovesBehind(s: State, setup: Setup, request: Request, next: State)
    requires Inv(s, setup) && next == Next(s, setup, request)
    ensures Behind(next) == Behind(s) + (if PromotesFinished(s, setup, request) then 1 else 0)
  {
    if Serve(s, setup, request).Ok? {
      ServeMovesBehind(s, setup, request);
    }
  }

  lemma NobodyBehind(s: State)
    requires s.tasks == map[] && s.stats == NEW_ACCOUNT.stats
    ensures Behind(s) == 0
  {
    assert DoneTasks(s.tasks) == {};
  }

  lemma {:induction false} BehindByPromotions(setup: Setup, requests: seq<Request>)
    ensures Behind(Run(NEW_ACCOUNT, setup, requests)) == FinishedPromotions(setup, requests)
  {
    if |requests| == 0 {
      NobodyBehind(Run(NEW_ACCOUNT, setup, requests));
    } else {
      var earlier, last := requests[..|requests| - 1], requests[|requests| - 1];
      BehindByPromotions(setup, earlier);
      EveryRunKeepsInv(setup, earlier);
      NextMovesBehind(Run(NEW_ACCOUNT, setup, earlier), setup, last, Run(NEW_ACCOUNT, setup, requests));
    }
  }

  lemma BothKinds(tasks: Rows)
    ensures |LiveCompleted(tasks)| == |DoneTasks(tasks)| + |DoneSubtasks(tasks)|
  {
    assert LiveCompleted(tasks) == DoneTasks(tasks) + DoneSubtasks(tasks);
  }

  /** In every run each counter is the number of its kind that is done, the one
      of tasks less, the one of subtasks more, by exactly the finished subtasks
      promoted; so both are right if and only if there was no such promotion. */
  lemma CountersByKind(setup: Setup, requests: seq<Request>)
    ensures var s, promoted := Run(NEW_ACCOUNT, setup, requests), FinishedPromotions(setup, requests);
            && s.stats.tasksCompleted == |DoneTasks(s.tasks)| - promoted
            && s.stats.subtasksCompleted == |DoneSubtasks(s.tasks)| + promoted
            && (s.stats.tasksCompleted == |DoneTasks(s.tasks)| <==> promoted == 0)
            && (s.stats.subtasksCompleted == |DoneSubtasks(s.tasks)| <==> promoted == 0)
  {
    BehindByPromotions(setup, requests);
    AggregateIsExact(setup, requests);
    BothKinds(Run(NEW_ACCOUNT, setup, requests).tasks);
  }

  // ---------- the counters can part for good ----------

  /** A finished subtask, promoted and reopened, takes a completion from the
      tasks that the subtasks were given: they lose one they never had. */
  lemma PromotedThenReopened(s: State, setup: Setup, id: Id, asked: QuadrantArg)
    requires Inv(s, setup) && Live(s.tasks, id) && s.tasks[id].parent.Some? && s.tasks[id].status == Completed
    requires !asked.Unknown?
    ensures var after := Next(Next(s, setup, DoPromote(id, asked)), setup, DoReopen(id));
            && after.stats.tasksCompleted == s.stats.tasksCompleted - 1
            && after.stats.subtasksCompleted == s.stats.subtasksCompleted
  {
    PromotedFinished(s, setup, id, asked);
    PromotionCountsNothing(s, id, asked);
    StepKeepsInv(s, setup, DoPromote(id, asked), Next(s, setup, DoPromote(id, asked)));
    TaskIsUncounted(Next(s, setup, DoPromote(id, asked)), setup, id);
  }

  lemma TaskIsUncounted(s: State, setup: Setup, id: Id)
    requires Inv(s, setup) && Live(s.tasks, id) && s.tasks[id].parent.None? && s.tasks[id].status == Completed
    ensures var after := Next(s, setup, DoReopen(id));
            && after.stats.tasksCompleted == s.stats.tasksCompleted - 1
            && after.stats.subtasksCompleted == s.stats.subtasksCompleted
  {
    ReopenTakesBack(s, setup, id);
  }

  lemma PromotedFinished(s: State, setup: Setup, id: Id, asked: QuadrantArg)
    requires Inv(s, setup) && Live(s.tasks, id) && s.tasks[id].parent.Some? && !asked.Unknown?
    ensures var r := Next(s, setup, DoPromote(id, asked));
            && Live(r.tasks, id) && r.tasks[id].parent == None && r.tasks[id].status == s.tasks[id].status
  {
    PromoteAnswers(s, setup, id, asked);
    PromoteGoesWhereAsked(s, setup, id, asked);
  }

  lemma PromotionCountsNothing(s: State, id: Id, asked: QuadrantArg)
    ensures Promote(s, id, asked).Ok? ==> Promote(s, id, asked).value.stats == s.stats
    ensures forall setup :: Next(s, setup, DoPromote(id, asked)).stats == s.stats
  {
  }
}
