/** Whole runs: what holds in every state an account can reach by any sequence
    of board and link requests, accepted or refused. */
module BoardRuns {
  import opened Types
  import opened Position
  import opened Tasks
  import opened Scopes
  import opened Ledger
  import opened Progression
  import opened Board
  import opened BoardInvariants
  import opened BoardRequests
  import opened BoardRemovals
  import opened BoardMoves
  import opened BoardLinks

  lemma NoRowsNothingDone(tasks: Rows)
    requires tasks == map[]
    ensures CountMatches(tasks, {}, NEW_ACCOUNT.stats, NO_DELTA)
    ensures TreeOK(tasks) && RowsOK(tasks) && SumsMatch(tasks, [], {})
  {
    assert LiveCompleted(tasks) == {};
  }

  lemma EmptyInv(s: State, setup: Setup)
    requires s.tasks == map[] && s.ledger == [] && s.links == map[] && s.held == {} && s.stats == NEW_ACCOUNT.stats
    ensures Inv(s, setup)
  {
    NoRowsNothingDone(s.tasks);
  }

  lemma NewAccountInv(setup: Setup)
    ensures Inv(NEW_ACCOUNT, setup)
  {
    EmptyInv(NEW_ACCOUNT, setup);
  }

  lemma NextKeepsInv(s: State, setup: Setup, request: Request)
    requires Inv(s, setup)
    ensures Inv(Next(s, setup, request), setup)
  {
    match request
    case DoCreate(id, draft) => CreateOutcome(s, setup, id, draft);
    case DoUpdate(id, patch) => UpdateOutcome(s, setup, id, patch);
    case DoComplete(id, now) => CompleteOutcome(s, setup, id, now);
    case DoReopen(id) => ReopenOutcome(s, setup, id);
    case DoDelete(id, now) => DeleteOutcome(s, setup, id, now);
    case DoMove(id, move) => MoveOutcome(s, setup, id, move);
    case DoPromote(id, asked) => PromoteOutcome(s, setup, id, asked);
    case DoLink(id, source, target, kind) => CreateLinkOutcome(s, setup, id, source, target, kind);
    case DoRetype(id, kind) => RetypeLinkOutcome(s, setup, id, kind);
    case DoUnlink(id) => DeleteLinkOutcome(s, setup, id);
  }

  lemma {:induction false} RunKeepsInv(s: State, setup: Setup, requests: seq<Request>)
    requires Inv(s, setup)
    ensures Inv(Run(s, setup, requests), setup)
  {
    if |requests| > 0 {
      var earlier := requests[..|requests| - 1];
      RunKeepsInv(s, setup, earlier);
      StepKeepsInv(Run(s, setup, earlier), setup, requests[|requests| - 1], Run(s, setup, requests));
    }
  }

  lemma StepKeepsInv(s: State, setup: Setup, request: Request, next: State)
    requires Inv(s, setup) && next == Next(s, setup, request)
    ensures Inv(next, setup)
  {
    NextKeepsInv(s, setup, request);
  }

  lemma EveryRunKeepsInv(setup: Setup, requests: seq<Request>)
    ensures Inv(Run(NEW_ACCOUNT, setup, requests), setup)
  {
    NewAccountInv(setup);
    RunKeepsInv(NEW_ACCOUNT, setup, requests);
  }

  /** What each row counts for in the aggregate. */
  ghost function PaidTable(tasks: Rows): map<Id, int> {
    map id | id in tasks :: Paid(tasks, {}, id)
  }

  /** Conservation: lifetime XP is the sum of the whole ledger, and the sum of
      what the live completed tasks were awarded; task by task, the ledger adds
      up to the award of a live completed task and to nothing otherwise. */
  lemma LedgerConservation(setup: Setup, requests: seq<Request>)
    ensures var s := Run(NEW_ACCOUNT, setup, requests);
            && s.stats.lifetimeXP == Total(s.ledger)
            && s.stats.lifetimeXP == SumOver(PaidTable(s.tasks))
            && s.stats.lifetimeXP >= 0
            && (forall id :: id in s.tasks ==>
                  SumFor(s.ledger, id)
                  == if Live(s.tasks, id) && s.tasks[id].IsCompleted() then s.tasks[id].xpAwarded.GetOr(0) else 0)
            && (forall id :: id !in s.tasks ==> SumFor(s.ledger, id) == 0)
  {
    EveryRunKeepsInv(setup, requests);
    BooksConserve(Run(NEW_ACCOUNT, setup, requests));
  }

  lemma BooksConserve(s: State)
    requires Books(Begin(s), s.stats, {}) && RowsOK(s.tasks)
    ensures s.stats.lifetimeXP == SumOver(PaidTable(s.tasks))
    ensures s.stats.lifetimeXP >= 0
    ensures forall id :: id in s.tasks ==>
      SumFor(s.ledger, id) == if Live(s.tasks, id) && s.tasks[id].IsCompleted() then s.tasks[id].xpAwarded.GetOr(0) else 0
    ensures forall id :: id !in s.tasks ==> SumFor(s.ledger, id) == 0
  {
    TotalByTask(s.ledger, s.tasks.Keys);
    assert TableOf(s.ledger, s.tasks.Keys) == PaidTable(s.tasks);
    forall id | id in s.tasks
      ensures Paid(s.tasks, {}, id) >= 0
      ensures Paid(s.tasks, {}, id)
              == if Live(s.tasks, id) && s.tasks[id].IsCompleted() then s.tasks[id].xpAwarded.GetOr(0) else 0
    {
      if s.tasks[id].IsCompleted() {
        PaidPositive(s.tasks[id]);
      }
    }
    SumNonNegative(PaidTable(s.tasks));
    forall id | id !in s.tasks
      ensures SumFor(s.ledger, id) == 0
    {
      NoEntriesNoSum(s.ledger, s.tasks, id);
    }
  }

  /** The aggregate never drifts: the two completion counters together count
      the live completed tasks, the level is the level of the XP, the
      achievement counter counts what is held. */
  lemma AggregateIsExact(setup: Setup, requests: seq<Request>)
    ensures var s := Run(NEW_ACCOUNT, setup, requests);
            && s.stats.tasksCompleted + s.stats.subtasksCompleted == |LiveCompleted(s.tasks)|
            && s.stats.level == LevelForXP(s.stats.lifetimeXP)
            && s.stats.achievementsUnlocked == |s.held|
  {
    EveryRunKeepsInv(setup, requests);
    NoneGone(Run(NEW_ACCOUNT, setup, requests).tasks);
  }

  lemma NoneGone(tasks: Rows)
    ensures LiveCompleted(tasks) - {} == LiveCompleted(tasks)
  {
  }

  ghost predicate Handed(ledger: seq<Entry>, task: Id, source: Source, n: int) {
    exists i :: 0 <= i < |ledger| && ledger[i].task == task && ledger[i].source == source && ledger[i].grantSeq == n
  }

  predicate IsFrom(e: Entry, task: Id, source: Source) {
    e.task == task && e.source == source
  }

  /** Grants are numbered 1..k for each task and source: no number repeats, none is skipped. */
  lemma GrantsAreNumbered(setup: Setup, requests: seq<Request>, task: Id, source: Source)
    requires source == TaskCompleted || source == SubtaskCompleted
    ensures var ledger := Run(NEW_ACCOUNT, setup, requests).ledger;
            && (forall i, j :: 0 <= i < j < |ledger| && IsFrom(ledger[i], task, source) && IsFrom(ledger[j], task, source)
                  ==> ledger[i].grantSeq != ledger[j].grantSeq)
            && (forall n :: 1 <= n <= Count(ledger, task, source) ==> Handed(ledger, task, source, n))
  {
    EveryRunKeepsInv(setup, requests);
    var ledger := Run(NEW_ACCOUNT, setup, requests).ledger;
    forall i, j | 0 <= i < j < |ledger|
      ensures !Collides(ledger[i], ledger[j])
    {
      NumberedNeverCollides(ledger, i, j);
    }
    forall n | 1 <= n <= Count(ledger, task, source)
      ensures Handed(ledger, task, source, n)
    {
      NumberedHasNoGaps(ledger, task, source, n);
    }
  }

  /** Live tasks form a forest of depth at most one, each in one ordering only,
      with a completion snapshot that is whole or absent. */
  lemma ForestOfDepthOne(setup: Setup, requests: seq<Request>, id: Id)
    ensures var tasks := Run(NEW_ACCOUNT, setup, requests).tasks;
      Live(tasks, id) ==>
        && (tasks[id].parent.None? <==> tasks[id].quadrant.Some?)
        && (tasks[id].parent.Some? ==> Live(tasks, tasks[id].parent.value) && tasks[tasks[id].parent.value].parent.None?)
        && (var t := tasks[id];
            if t.status == Completed
            then t.completedAt.Some? && t.xpAwarded.Some? && t.quadrantAtCompletion.Some? && t.completedVia.Some?
            else t.completedAt == None && t.xpAwarded == None && t.quadrantAtCompletion == None && t.completedVia == None)
        && ResolveQuadrant(tasks, tasks[id]).Ok?
  {
    EveryRunKeepsInv(setup, requests);
    var tasks := Run(NEW_ACCOUNT, setup, requests).tasks;
    if Live(tasks, id) {
      assert RowPlaced(tasks, id);
      QuadrantResolves(tasks, id);
    }
  }

  ghost predicate Corrupt(r: Result<State>) {
    r == Err(OrphanedNode) || r == Err(XPAlreadyGranted)
  }

  lemma CreateFindsNoCorruption(s: State, setup: Setup, id: Id, draft: Draft)
    requires TreeOK(s.tasks) && RowsOK(s.tasks)
    ensures !Corrupt(Create(s, setup, id, draft))
  {
    if Acceptable(s, setup, id, draft) {
      CreateAccepts(s, setup, id, draft);
    } else {
      CreateRefuses(s, setup, id, draft);
    }
  }

  lemma CompleteFindsNoCorruption(s: State, setup: Setup, id: Id, now: int)
    requires Inv(s, setup)
    ensures !Corrupt(Complete(s, setup, id, now))
  {
    CompleteOutcome(s, setup, id, now);
  }

  lemma PromoteFindsNoCorruption(s: State, setup: Setup, id: Id, asked: QuadrantArg)
    requires Inv(s, setup)
    ensures !Corrupt(Promote(s, id, asked))
  {
    PromoteOutcome(s, setup, id, asked);
  }

  lemma MoveFindsNoCorruption(s: State, setup: Setup, id: Id, move: Move)
    requires Inv(s, setup)
    ensures !Corrupt(MoveTask(s, id, move))
  {
    MoveOutcome(s, setup, id, move);
    if Live(s.tasks, id) && !s.tasks[id].IsCompleted() && Destination(s.tasks[id], move).Ok? {
      PlacingAnswers(Removed(Listing(s.tasks, Destination(s.tasks[id], move).value), id), move.before, move.after);
    }
  }

  lemma DeleteFindsNoCorruption(s: State, setup: Setup, id: Id, now: int)
    requires Inv(s, setup)
    ensures !Corrupt(Delete(s, id, now))
  {
    DeleteOutcome(s, setup, id, now);
  }

  lemma ReopenFindsNoCorruption(s: State, setup: Setup, id: Id)
    requires Inv(s, setup)
    ensures !Corrupt(Reopen(s, id))
  {
    ReopenOutcome(s, setup, id);
  }

  lemma UpdateFindsNoCorruption(s: State, setup: Setup, id: Id, patch: Patch)
    requires Inv(s, setup)
    ensures !Corrupt(Update(s, id, patch))
  {
    UpdateOutcome(s, setup, id, patch);
  }

  lemma LinkRequestsFindNoCorruption(s: State, setup: Setup, request: Request)
    requires request.DoLink? || request.DoRetype? || request.DoUnlink?
    ensures !Corrupt(Serve(s, setup, request))
  {
    if request.DoLink? {
      CreateLinkDecides(s, setup, request.id, request.source, request.target, request.linkType);
    }
  }

  lemma ServeFindsNoCorruption(s: State, setup: Setup, request: Request)
    requires Inv(s, setup)
    ensures !Corrupt(Serve(s, setup, request))
  {
    match request
    case DoCreate(id, draft) => CreateFindsNoCorruption(s, setup, id, draft);
    case DoComplete(id, now) => CompleteFindsNoCorruption(s, setup, id, now);
    case DoPromote(id, asked) => PromoteFindsNoCorruption(s, setup, id, asked);
    case DoMove(id, move) => MoveFindsNoCorruption(s, setup, id, move);
    case DoDelete(id, now) => DeleteFindsNoCorruption(s, setup, id, now);
    case DoReopen(id) => ReopenFindsNoCorruption(s, setup, id);
    case DoUpdate(id, patch) => UpdateFindsNoCorruption(s, setup, id, patch);
    case _ => LinkRequestsFindNoCorruption(s, setup, request);
  }

  /** Neither a lost parent nor a number already used ever stops a request. */
  lemma NoCorruptionIsReported(setup: Setup, requests: seq<Request>, request: Request)
    ensures !Corrupt(Serve(Run(NEW_ACCOUNT, setup, requests), setup, request))
  {
    EveryRunKeepsInv(setup, requests);
    ServeFindsNoCorruption(Run(NEW_ACCOUNT, setup, requests), setup, request);
  }

  /** What was recorded at completion. */
  function Snapshot(t: Task): (Option<int>, Option<int>, Option<Quadrant>, Option<Via>) {
    (t.completedAt, t.xpAwarded, t.quadrantAtCompletion, t.completedVia)
  }

  ghost predicate Frozen(before: Task, after: Rows, id: Id) {
    id in after && after[id].IsCompleted() && Snapshot(after[id]) == Snapshot(before)
  }

  lemma FrozenByCreate(s: State, setup: Setup, newId: Id, draft: Draft, id: Id)
    requires TreeOK(s.tasks) && RowsOK(s.tasks) && id in s.tasks && s.tasks[id].IsCompleted()
    ensures var r := Create(s, setup, newId, draft); r.Ok? ==> Frozen(s.tasks[id], r.value.tasks, id)
  {
    if Acceptable(s, setup, newId, draft) {
      CreateAccepts(s, setup, newId, draft);
      FrozenByCreated(s.tasks, newId, draft, id);
    } else {
      CreateRefuses(s, setup, newId, draft);
    }
  }

  lemma FrozenByCreated(tasks: Rows, newId: Id, draft: Draft, id: Id)
    requires TreeOK(tasks) && newId !in tasks && Placeable(tasks, draft) && id in tasks && tasks[id].IsCompleted()
    ensures Frozen(tasks[id], CreatedRows(tasks, newId, draft), id)
  {
    RepositionOnlyMoves(tasks, EndOf(tasks, DraftScope(draft)).placements);
  }

  lemma FrozenByPlacing(tasks: Rows, other: Id, scope: Scope, placed: Placed, id: Id)
    requires TreeOK(tasks) && RowsOK(tasks) && Live(tasks, other) && MayPlace(tasks[other], scope)
    requires id in tasks && tasks[id].IsCompleted()
    ensures Frozen(tasks[id], PlacedRows(tasks, other, scope, placed), id)
  {
    PlacedRowsOnlyMove(tasks, other, scope, placed);
    assert SameWork(tasks[id], PlacedRows(tasks, other, scope, placed)[id]);
  }

  lemma MovedAway(s: State, setup: Setup, other: Id, move: Move)
    requires Inv(s, setup) && MoveTask(s, other, move).Ok?
    ensures TreeOK(s.tasks) && RowsOK(s.tasks) && Live(s.tasks, other) && Destination(s.tasks[other], move).Ok?
    ensures var scope := Destination(s.tasks[other], move).value;
            var placed := Placing(Removed(Listing(s.tasks, scope), other), move.before, move.after);
            placed.Ok? && MoveTask(s, other, move).value.tasks == PlacedRows(s.tasks, other, scope, placed.value)
  {
    MoveOutcome(s, setup, other, move);
  }

  lemma DeletedRowsAre(s: State, setup: Setup, id: Id, now: int)
    requires Inv(s, setup) && Delete(s, id, now).Ok?
    ensures Delete(s, id, now).value.tasks == DeletedRows(s.tasks, Family(s.tasks, id), now)
  {
    DeleteOutcome(s, setup, id, now);
  }

  lemma PromotedRows(s: State, setup: Setup, id: Id, asked: QuadrantArg)
    requires Inv(s, setup) && Promote(s, id, asked).Ok?
    ensures TreeOK(s.tasks) && RowsOK(s.tasks) && Live(s.tasks, id) && s.tasks[id].IsSubtask()
    ensures PromotionQuadrant(s.tasks, s.tasks[id], asked).Ok?
    ensures var scope := InQuadrant(PromotionQuadrant(s.tasks, s.tasks[id], asked).value);
            var placed := Placing(Removed(Listing(s.tasks, scope), id), None, None);
            placed.Ok? && Promote(s, id, asked).value.tasks == PlacedRows(s.tasks, id, scope, placed.value)
  {
    PromoteOutcome(s, setup, id, asked);
  }

  lemma FrozenByMoved(s: State, setup: Setup, other: Id, move: Move, id: Id)
    requires Inv(s, setup) && id in s.tasks && s.tasks[id].IsCompleted() && MoveTask(s, other, move).Ok?
    ensures Frozen(s.tasks[id], MoveTask(s, other, move).value.tasks, id)
  {
    MovedAway(s, setup, other, move);
    MoveNeedsItsParent(s, other, move);
    var scope := Destination(s.tasks[other], move).value;
    FrozenByPlacing(s.tasks, other, scope,
                    Placing(Removed(Listing(s.tasks, scope), other), move.before, move.after).value, id);
  }

  lemma MoveNeedsItsParent(s: State, other: Id, move: Move)
    requires Live(s.tasks, other) && Destination(s.tasks[other], move).Ok?
    ensures MayPlace(s.tasks[other], Destination(s.tasks[other], move).value)
  {
  }

  lemma FrozenByMove(s: State, setup: Setup, other: Id, move: Move, id: Id)
    requires Inv(s, setup) && id in s.tasks && s.tasks[id].IsCompleted()
    ensures var r := MoveTask(s, other, move); r.Ok? ==> Frozen(s.tasks[id], r.value.tasks, id)
  {
    if MoveTask(s, other, move).Ok? {
      FrozenByMoved(s, setup, other, move, id);
    }
  }

  lemma FrozenByPromote(s: State, setup: Setup, other: Id, asked: QuadrantArg, id: Id)
    requires Inv(s, setup) && id in s.tasks && s.tasks[id].IsCompleted()
    ensures var r := Promote(s, other, asked); r.Ok? ==> Frozen(s.tasks[id], r.value.tasks, id)
  {
    PromoteOutcome(s, setup, other, asked);
    if Promote(s, other, asked).Ok? {
      var scope := InQuadrant(PromotionQuadrant(s.tasks, s.tasks[other], asked).value);
      FrozenByPlacing(s.tasks, other, scope, Placing(Removed(Listing(s.tasks, scope), other), None, None).value, id);
    }
  }

  lemma FrozenByComplete(s: State, setup: Setup, other: Id, now: int, id: Id)
    requires Inv(s, setup) && id in s.tasks && s.tasks[id].IsCompleted()
    ensures var r := Complete(s, setup, other, now); r.Ok? ==> Frozen(s.tasks[id], r.value.tasks, id)
  {
    CompleteOutcome(s, setup, other, now);
  }

  lemma FrozenByDelete(s: State, setup: Setup, other: Id, now: int, id: Id)
    requires Inv(s, setup) && id in s.tasks && s.tasks[id].IsCompleted()
    ensures var r := Delete(s, other, now); r.Ok? ==> Frozen(s.tasks[id], r.value.tasks, id)
  {
    DeleteOutcome(s, setup, other, now);
  }

  lemma FrozenByReopen(s: State, setup: Setup, other: Id, id: Id)
    requires Inv(s, setup) && id in s.tasks && s.tasks[id].IsCompleted()
    ensures var r := Reopen(s, other); r.Ok? ==> Frozen(s.tasks[id], r.value.tasks, id) || other == id
  {
    ReopenOutcome(s, setup, other);
  }

  lemma FrozenByUpdate(s: State, setup: Setup, other: Id, patch: Patch, id: Id)
    requires Inv(s, setup) && id in s.tasks && s.tasks[id].IsCompleted()
    ensures var r := Update(s, other, patch); r.Ok? ==> Frozen(s.tasks[id], r.value.tasks, id)
  {
    UpdateOutcome(s, setup, other, patch);
  }

  lemma FrozenByLink(s: State, setup: Setup, request: Request)
    requires request.DoLink? || request.DoRetype? || request.DoUnlink?
    ensures var r := Serve(s, setup, request); r.Ok? ==> r.value.tasks == s.tasks
  {
    if request.DoLink? {
      CreateLinkDecides(s, setup, request.id, request.source, request.target, request.linkType);
    }
  }

  /** The snapshot of a completed task is frozen: only reopening that very task
      ends it; every other request leaves it as it was. */
  lemma SnapshotIsFrozen(s: State, setup: Setup, request: Request, id: Id)
    requires Inv(s, setup) && id in s.tasks && s.tasks[id].IsCompleted()
    ensures Frozen(s.tasks[id], Next(s, setup, request).tasks, id) || request == DoReopen(id)
  {
    match request
    case DoCreate(newId, draft) => FrozenByCreate(s, setup, newId, draft, id);
    case DoUpdate(other, patch) => FrozenByUpdate(s, setup, other, patch, id);
    case DoComplete(other, now) => FrozenByComplete(s, setup, other, now, id);
    case DoReopen(other) => FrozenByReopen(s, setup, other, id);
    case DoDelete(other, now) => FrozenByDelete(s, setup, other, now, id);
    case DoMove(other, move) => FrozenByMove(s, setup, other, move, id);
    case DoPromote(other, asked) => FrozenByPromote(s, setup, other, asked, id);
    case DoLink(_, _, _, _) => FrozenByLink(s, setup, request);
    case DoRetype(_, _) => FrozenByLink(s, setup, request);
    case DoUnlink(_) => FrozenByLink(s, setup, request);
  }

  // ---------- states of a run ----------

  /** The account after the first k requests. */
  ghost function At(setup: Setup, requests: seq<Request>, k: nat): State
    requires k <= |requests|
  {
    Run(NEW_ACCOUNT, setup, requests[..k])
  }

  lemma NextAt(setup: Setup, requests: seq<Request>, k: nat)
    requires k < |requests|
    ensures At(setup, requests, k + 1) == Next(At(setup, requests, k), setup, requests[k])
  {
    assert requests[..k + 1][..k] == requests[..k];
  }

  lemma RunAppended(setup: Setup, requests: seq<Request>, request: Request)
    ensures At(setup, requests, |requests|) == Run(NEW_ACCOUNT, setup, requests)
    ensures Run(NEW_ACCOUNT, setup, requests + [request]) == Next(Run(NEW_ACCOUNT, setup, requests), setup, request)
    ensures At(setup, requests + [request], |requests| + 1) == Next(Run(NEW_ACCOUNT, setup, requests), setup, request)
  {
    var longer := requests + [request];
    assert requests[..|requests|] == requests && longer[..|requests|] == requests;
    assert longer[..|requests| + 1] == longer;
  }

  lemma PrefixAt(setup: Setup, requests: seq<Request>, request: Request, k: nat)
    requires k <= |requests|
    ensures At(setup, requests + [request], k) == At(setup, requests, k)
  {
    assert (requests + [request])[..k] == requests[..k];
  }

  /** Over a whole run: between two states with no request to reopen that very
      task in between, a completed task's snapshot is the same. */
  lemma {:induction false} SnapshotLasts(setup: Setup, requests: seq<Request>, i: nat, j: nat, id: Id)
    requires i <= j <= |requests| && forall k :: i <= k < j ==> requests[k] != DoReopen(id)
    requires id in At(setup, requests, i).tasks && At(setup, requests, i).tasks[id].IsCompleted()
    ensures Frozen(At(setup, requests, i).tasks[id], At(setup, requests, j).tasks, id)
    decreases j
  {
    if i < j {
      SnapshotLasts(setup, requests, i, j - 1, id);
      EveryRunKeepsInv(setup, requests[..j - 1]);
      NextAt(setup, requests, j - 1);
      SnapshotIsFrozen(At(setup, requests, j - 1), setup, requests[j - 1], id);
    }
  }

  /** Links join two distinct live tasks that are not parent and child. No two
      say the same: none of one type repeats another's ends, nor, where the type
      reads the same both ways, its ends reversed. A free account has at most five. */
  lemma LinksStayHonest(setup: Setup, requests: seq<Request>)
    ensures var s := Run(NEW_ACCOUNT, setup, requests);
            && (forall k :: k in s.links ==> var l := s.links[k];
                  && l.source != l.target && Live(s.tasks, l.source) && Live(s.tasks, l.target)
                  && s.tasks[l.source].parent != Some(l.target) && s.tasks[l.target].parent != Some(l.source))
            && (forall j, k :: j in s.links && k in s.links && j != k && s.links[j].kind == s.links[k].kind ==>
                  && !(s.links[j].source == s.links[k].source && s.links[j].target == s.links[k].target)
                  && (s.links[j].kind == Related || s.links[j].kind == ConnectedTo ==>
                        !(s.links[j].source == s.links[k].target && s.links[j].target == s.links[k].source)))
            && (setup.plan == Free ==> |s.links| <= 5)
  {
    EveryRunKeepsInv(setup, requests);
    HonestLinks(Run(NEW_ACCOUNT, setup, requests).tasks, Run(NEW_ACCOUNT, setup, requests).links);
  }

  lemma HonestLinks(tasks: Rows, links: map<Id, Link>)
    requires LinksOK(tasks, links)
    ensures forall k :: k in links ==> LinkOK(tasks, links[k])
    ensures forall j, k :: j in links && k in links && j != k && links[j].kind == links[k].kind ==>
              && !(links[j].source == links[k].source && links[j].target == links[k].target)
              && (links[j].kind == Related || links[j].kind == ConnectedTo ==>
                    !(links[j].source == links[k].target && links[j].target == links[k].source))
  {
    forall j, k | j in links && k in links && j != k && links[j].kind == links[k].kind
      ensures !(links[j].source == links[k].source && links[j].target == links[k].target)
      ensures links[j].kind == Related || links[j].kind == ConnectedTo ==>
                !(links[j].source == links[k].target && links[j].target == links[k].source)
    {
      assert !SameEnds(links[j], links[k]);
    }
  }
}
