/** Gap positions refine plain lists over whole runs: the specification keeps,
    for every scope, a list of ids changed only by insertion at a neighbour,
    appending and removal; the positions always sort to that list. */
module BoardOrderRuns {
  import opened Types
  import opened Position
  import opened Tasks
  import opened Scopes
  import opened Board
  import opened BoardInvariants
  import opened BoardRequests
  import opened BoardRemovals
  import opened BoardMoves
  import opened BoardRuns
  import opened BoardOrder
  import opened BoardLists

  // ---------- the specification ----------

  /** The scope a move names: siblings of a parent, or a quadrant. */
  function NamedScope(move: Move): Option<Scope> {
    if move.parent.Some? then Some(UnderParent(move.parent.value))
    else match move.quadrant
      case Known(q) => Some(InQuadrant(q))
      case _ => None
  }

  /** The quadrant a promotion names, or the one of the parent that is left. */
  function NamedQuadrant(tasks: Rows, id: Id, asked: QuadrantArg): Option<Quadrant>
    requires id in tasks
  {
    var parent := tasks[id].parent;
    match asked
    case Known(q) => Some(q)
    case _ => if parent.Some? && parent.value in tasks then tasks[parent.value].quadrant else None
  }

  /** What an accepted request does to the list of one scope. */
  ghost function ListNext(list: seq<Id>, s: State, request: Request, scope: Scope): seq<Id> {
    match request
    case DoCreate(id, draft) =>
      if (draft.parent.Some? || draft.quadrant.Known?) && DraftScope(draft) == scope then list + [id] else list
    case DoMove(id, move) =>
      if id !in s.tasks then list
      else
        var rest := LeaveOut(list, {id});
        if NamedScope(move) == Some(scope) then InsertBeside(rest, id, move.before, move.after) else rest
    case DoPromote(id, asked) =>
      if id !in s.tasks then list
      else
        var rest, quadrant := LeaveOut(list, {id}), NamedQuadrant(s.tasks, id, asked);
        if quadrant.Some? && scope == InQuadrant(quadrant.value) then rest + [id] else rest
    case DoDelete(id, _) => LeaveOut(list, Family(s.tasks, id))
    case _ => list
  }

  /** The list of one scope after a run; a refused request changes no list. */
  ghost function ListRun(setup: Setup, requests: seq<Request>, scope: Scope): seq<Id> {
    if |requests| == 0 then []
    else
      var earlier, request := requests[..|requests| - 1], requests[|requests| - 1];
      var s, list := Run(NEW_ACCOUNT, setup, earlier), ListRun(setup, earlier, scope);
      if Serve(s, setup, request).Ok? then ListNext(list, s, request, scope) else list
  }

  /** Whether the request adds a subtask under this very parent. */
  predicate AddsSubtask(request: Request, scope: Scope) {
    request.DoCreate? && request.draft.parent.Some? && scope == UnderParent(request.draft.parent.value)
  }

  /** A new subtask would be listed last among its siblings. */
  ghost predicate AppendsInOrder(tasks: Rows, request: Request, scope: Scope) {
    AddsSubtask(request, scope) ==> EndsUpLast(Listing(tasks, scope), request.id)
  }

  /** ... or at a position of its own. */
  ghost predicate AppendsApart(tasks: Rows, request: Request, scope: Scope) {
    AddsSubtask(request, scope) ==> EndIsFree(Listing(tasks, scope))
  }

  // ---------- one request ----------

  ghost predicate Tidy(s: State, setup: Setup) {
    Inv(s, setup) && PositionsInRange(s.tasks) && SmallScopes(s.tasks)
  }

  /** What a step owes one list, `list` being what the specification makes of it. */
  ghost predicate Follows(before: Rows, after: Rows, request: Request, scope: Scope, list: seq<Id>) {
    var l, now := Listing(before, scope), Listing(after, scope);
    && (AppendsInOrder(before, request, scope) <==> SlotIds(now) == list)
    && (StrictlyIncreasing(l) ==> (AppendsApart(before, request, scope) <==> StrictlyIncreasing(now)))
  }

  ghost function Expected(s: State, request: Request, scope: Scope): seq<Id> {
    ListNext(SlotIds(Listing(s.tasks, scope)), s, request, scope)
  }

  lemma CreatedTaskFollows(s: State, id: Id, draft: Draft, scope: Scope)
    requires TreeOK(s.tasks) && id !in s.tasks && draft.parent.None? && draft.quadrant.Known?
    requires PositionsInRange(s.tasks) && SmallScopes(s.tasks)
    ensures Follows(s.tasks, CreatedRows(s.tasks, id, draft), DoCreate(id, draft), scope, Expected(s, DoCreate(id, draft), scope))
  {
    CreatedTaskOrders(s.tasks, id, draft, scope);
  }

  lemma CreatedSubtaskFollows(s: State, id: Id, draft: Draft, scope: Scope)
    requires id !in s.tasks && draft.parent.Some?
    requires PositionsInRange(s.tasks) && SmallScopes(s.tasks)
    ensures Follows(s.tasks, CreatedRows(s.tasks, id, draft), DoCreate(id, draft), scope, Expected(s, DoCreate(id, draft), scope))
  {
    CreatedSubtaskOrders(s.tasks, id, draft, scope);
    if scope == DraftScope(draft) && !EndsUpLast(Listing(s.tasks, scope), id) {
      SubtaskNotLast(s.tasks, id, draft);
    }
    CreatedSubtaskTies(s.tasks, id, draft);
  }

  lemma CreatedKeepsRange(tasks: Rows, id: Id, draft: Draft)
    requires TreeOK(tasks) && RowsOK(tasks) && id != NIL && id !in tasks && Placeable(tasks, draft)
    requires PositionsInRange(tasks) && SmallScopes(tasks)
    ensures PositionsInRange(CreatedRows(tasks, id, draft))
  {
    if draft.parent.Some? {
      ScopeIsSound(tasks, DraftScope(draft));
      AppendWithoutPlacements(Listing(tasks, DraftScope(draft)));
    } else {
      CreateFits(tasks, id, draft);
      forall other
        ensures InRange(Listing(CreatedRows(tasks, id, draft), other))
      {
        CreatedTaskOrders(tasks, id, draft, other);
      }
      RangeFromListings(CreatedRows(tasks, id, draft));
    }
  }

  lemma CreatedRowsAre(s: State, setup: Setup, id: Id, draft: Draft)
    requires Inv(s, setup) && Create(s, setup, id, draft).Ok?
    ensures TreeOK(s.tasks) && RowsOK(s.tasks) && id != NIL && id !in s.tasks && Placeable(s.tasks, draft)
    ensures Create(s, setup, id, draft).value.tasks == CreatedRows(s.tasks, id, draft)
  {
    CreateOutcome(s, setup, id, draft);
  }

  lemma CreateFollows(s: State, setup: Setup, id: Id, draft: Draft, scope: Scope)
    requires Tidy(s, setup) && Create(s, setup, id, draft).Ok?
    ensures var after := Create(s, setup, id, draft).value.tasks;
            && Follows(s.tasks, after, DoCreate(id, draft), scope, Expected(s, DoCreate(id, draft), scope))
            && PositionsInRange(after)
  {
    CreatedRowsAre(s, setup, id, draft);
    CreatedKeepsRange(s.tasks, id, draft);
    if draft.parent.Some? {
      CreatedSubtaskFollows(s, id, draft, scope);
    } else {
      CreatedTaskFollows(s, id, draft, scope);
    }
  }

  lemma PlacingKeepsRange(tasks: Rows, id: Id, scope: Scope, index: nat)
    requires TreeOK(tasks) && RowsOK(tasks) && Live(tasks, id) && MayPlace(tasks[id], scope)
    requires PositionsInRange(tasks) && SmallScopes(tasks)
    requires index <= |Removed(Listing(tasks, scope), id)|
    ensures PositionsInRange(PlacedRows(tasks, id, scope, PlaceAt(Removed(Listing(tasks, scope), id), index)))
  {
    var after := PlacedRows(tasks, id, scope, PlaceAt(Removed(Listing(tasks, scope), id), index));
    PlacedRowsOnlyMove(tasks, id, scope, PlaceAt(Removed(Listing(tasks, scope), id), index));
    forall other
      ensures InRange(Listing(after, other))
    {
      PlacingOrders(tasks, id, scope, index, other);
    }
    RangeFromListings(after);
  }

  /** The rows of an accepted move or promotion, by the index it chose. */
  ghost predicate PlacedIn(s: State, after: Rows, id: Id, scope: Scope, before: Option<Id>, behind: Option<Id>) {
    && TreeOK(s.tasks) && RowsOK(s.tasks) && Live(s.tasks, id) && MayPlace(s.tasks[id], scope)
    && var rest := Removed(Listing(s.tasks, scope), id);
       var index := TargetIndex(rest, before, behind);
       index.Ok? && index.value <= |rest| && after == PlacedRows(s.tasks, id, scope, PlaceAt(rest, index.value))
  }

  lemma MovedRowsAre(s: State, setup: Setup, id: Id, move: Move)
    requires Inv(s, setup) && MoveTask(s, id, move).Ok?
    ensures Live(s.tasks, id) && Destination(s.tasks[id], move).Ok?
    ensures PlacedIn(s, MoveTask(s, id, move).value.tasks, id, Destination(s.tasks[id], move).value, move.before, move.after)
  {
    MovedAway(s, setup, id, move);
    MoveNeedsItsParent(s, id, move);
    PlacingAnswers(Removed(Listing(s.tasks, Destination(s.tasks[id], move).value), id), move.before, move.after);
  }

  lemma PromotedRowsAre(s: State, setup: Setup, id: Id, asked: QuadrantArg)
    requires Inv(s, setup) && Promote(s, id, asked).Ok?
    ensures Live(s.tasks, id) && s.tasks[id].IsSubtask() && PromotionQuadrant(s.tasks, s.tasks[id], asked).Ok?
    ensures PlacedIn(s, Promote(s, id, asked).value.tasks, id,
                     InQuadrant(PromotionQuadrant(s.tasks, s.tasks[id], asked).value), None, None)
  {
    PromotedRows(s, setup, id, asked);
    PlacingAnswers(Removed(Listing(s.tasks, InQuadrant(PromotionQuadrant(s.tasks, s.tasks[id], asked).value)), id), None, None);
  }

  /** An accepted placement is list insertion beside the named neighbour. */
  lemma PlacedFollows(s: State, after: Rows, id: Id, target: Scope, before: Option<Id>, behind: Option<Id>, scope: Scope)
    requires PlacedIn(s, after, id, target, before, behind) && PositionsInRange(s.tasks) && SmallScopes(s.tasks)
    ensures var l := Listing(s.tasks, scope);
            var rest := LeaveOut(SlotIds(l), {id});
            && SlotIds(Listing(after, scope)) == (if target == scope then InsertBeside(rest, id, before, behind) else rest)
            && (StrictlyIncreasing(l) ==> StrictlyIncreasing(Listing(after, scope)))
  {
    var rest := Removed(Listing(s.tasks, target), id);
    PlacingOrders(s.tasks, id, target, TargetIndex(rest, before, behind).value, scope);
    IndexAgrees(rest, id, before, behind);
  }

  lemma MovedFollows(s: State, after: Rows, id: Id, move: Move, scope: Scope)
    requires Live(s.tasks, id) && Destination(s.tasks[id], move).Ok?
    requires PlacedIn(s, after, id, Destination(s.tasks[id], move).value, move.before, move.after)
    requires PositionsInRange(s.tasks) && SmallScopes(s.tasks)
    ensures Follows(s.tasks, after, DoMove(id, move), scope, Expected(s, DoMove(id, move), scope))
  {
    DestinationIsNamed(s.tasks[id], move);
    PlacedFollows(s, after, id, Destination(s.tasks[id], move).value, move.before, move.after, scope);
  }

  lemma DestinationIsNamed(item: Task, move: Move)
    requires Destination(item, move).Ok?
    ensures NamedScope(move) == Some(Destination(item, move).value)
  {
  }

  lemma PromotionIsNamed(tasks: Rows, id: Id, asked: QuadrantArg)
    requires TreeOK(tasks) && Live(tasks, id) && tasks[id].IsSubtask() && PromotionQuadrant(tasks, tasks[id], asked).Ok?
    ensures NamedQuadrant(tasks, id, asked) == Some(PromotionQuadrant(tasks, tasks[id], asked).value)
  {
    assert RowPlaced(tasks, id);
  }

  lemma PromotedFollows(s: State, after: Rows, id: Id, asked: QuadrantArg, scope: Scope)
    requires Live(s.tasks, id) && s.tasks[id].IsSubtask() && PromotionQuadrant(s.tasks, s.tasks[id], asked).Ok?
    requires PlacedIn(s, after, id, InQuadrant(PromotionQuadrant(s.tasks, s.tasks[id], asked).value), None, None)
    requires PositionsInRange(s.tasks) && SmallScopes(s.tasks)
    ensures Follows(s.tasks, after, DoPromote(id, asked), scope, Expected(s, DoPromote(id, asked), scope))
  {
    PromotionIsNamed(s.tasks, id, asked);
    PlacedFollows(s, after, id, InQuadrant(PromotionQuadrant(s.tasks, s.tasks[id], asked).value), None, None, scope);
  }

  lemma PlacedStaysInRange(s: State, after: Rows, id: Id, target: Scope, before: Option<Id>, behind: Option<Id>)
    requires PlacedIn(s, after, id, target, before, behind) && PositionsInRange(s.tasks) && SmallScopes(s.tasks)
    ensures PositionsInRange(after)
  {
    PlacingKeepsRange(s.tasks, id, target, TargetIndex(Removed(Listing(s.tasks, target), id), before, behind).value);
  }

  lemma MoveFollows(s: State, setup: Setup, id: Id, move: Move, scope: Scope)
    requires Tidy(s, setup) && MoveTask(s, id, move).Ok?
    ensures var after := MoveTask(s, id, move).value.tasks;
            && Follows(s.tasks, after, DoMove(id, move), scope, Expected(s, DoMove(id, move), scope))
            && PositionsInRange(after)
  {
    var after := MoveTask(s, id, move).value.tasks;
    MovedRowsAre(s, setup, id, move);
    MovedFollows(s, after, id, move, scope);
    PlacedStaysInRange(s, after, id, Destination(s.tasks[id], move).value, move.before, move.after);
  }

  lemma PromoteFollows(s: State, setup: Setup, id: Id, asked: QuadrantArg, scope: Scope)
    requires Tidy(s, setup) && Promote(s, id, asked).Ok?
    ensures var after := Promote(s, id, asked).value.tasks;
            && Follows(s.tasks, after, DoPromote(id, asked), scope, Expected(s, DoPromote(id, asked), scope))
            && PositionsInRange(after)
  {
    var after := Promote(s, id, asked).value.tasks;
    PromotedRowsAre(s, setup, id, asked);
    PromotedFollows(s, after, id, asked, scope);
    PlacedStaysInRange(s, after, id, InQuadrant(PromotionQuadrant(s.tasks, s.tasks[id], asked).value), None, None);
  }

  lemma DeleteFollows(s: State, setup: Setup, id: Id, now: int, scope: Scope)
    requires Tidy(s, setup) && Delete(s, id, now).Ok?
    ensures var after := Delete(s, id, now).value.tasks;
            && Follows(s.tasks, after, DoDelete(id, now), scope, Expected(s, DoDelete(id, now), scope))
            && PositionsInRange(after)
  {
    DeletedRowsAre(s, setup, id, now);
    DeletedFollows(s, id, now, scope);
  }

  lemma DeletedFollows(s: State, id: Id, now: int, scope: Scope)
    requires PositionsInRange(s.tasks)
    ensures var after := DeletedRows(s.tasks, Family(s.tasks, id), now);
            && Follows(s.tasks, after, DoDelete(id, now), scope, Expected(s, DoDelete(id, now), scope))
            && PositionsInRange(after)
  {
    var l := Listing(s.tasks, scope);
    DeletedListing(s.tasks, Family(s.tasks, id), now, scope);
    KeptIds(l, Family(s.tasks, id));
    KeptKeeps(l, Family(s.tasks, id));
  }

  predicate KeepsPlaces(request: Request) {
    !request.DoCreate? && !request.DoMove? && !request.DoPromote? && !request.DoDelete?
  }

  lemma StayingFollows(s: State, after: Rows, request: Request, scope: Scope)
    requires PositionsInRange(s.tasks) && SamePlaces(s.tasks, after) && KeepsPlaces(request)
    ensures Follows(s.tasks, after, request, scope, Expected(s, request, scope)) && PositionsInRange(after)
  {
    SamePlacesSameListing(s.tasks, after, scope);
    forall id | Live(after, id)
      ensures 1 <= after[id].position <= POSITION_CEILING
    {
      assert SamePlace(s.tasks[id], after[id]) && Live(s.tasks, id);
    }
  }

  lemma CompletedRowsAre(s: State, setup: Setup, id: Id, now: int)
    requires Inv(s, setup) && Complete(s, setup, id, now).Ok?
    ensures id in s.tasks && exists q :: Complete(s, setup, id, now).value.tasks == CompletedRows(s.tasks, id, q, now)
  {
    CompleteOutcome(s, setup, id, now);
  }

  lemma CompleteStays(s: State, setup: Setup, id: Id, now: int)
    requires Inv(s, setup) && Complete(s, setup, id, now).Ok?
    ensures SamePlaces(s.tasks, Complete(s, setup, id, now).value.tasks)
  {
    CompletedRowsAre(s, setup, id, now);
    var q :| Complete(s, setup, id, now).value.tasks == CompletedRows(s.tasks, id, q, now);
    CompletedRowsStay(s.tasks, id, q, now);
  }

  lemma CompletedRowsStay(tasks: Rows, id: Id, quadrant: Quadrant, now: int)
    requires id in tasks
    ensures SamePlaces(tasks, CompletedRows(tasks, id, quadrant, now))
  {
  }

  lemma ReopenStays(s: State, id: Id)
    requires Reopen(s, id).Ok?
    ensures SamePlaces(s.tasks, Reopen(s, id).value.tasks)
  {
    var row := Unfinished(s.tasks[id]);
    assert ReopenWork(s, id).value.tasks == s.tasks[id := row];
    assert SamePlace(s.tasks[id], row);
  }

  lemma UpdateStays(s: State, id: Id, patch: Patch)
    requires Update(s, id, patch).Ok?
    ensures SamePlaces(s.tasks, Update(s, id, patch).value.tasks)
  {
    var row := ApplyPatch(s.tasks[id], patch);
    assert Update(s, id, patch).value.tasks == s.tasks[id := row];
    assert SamePlace(s.tasks[id], row);
  }

  lemma LinkStays(s: State, setup: Setup, request: Request)
    requires Serve(s, setup, request).Ok?
    requires request.DoLink? || request.DoRetype? || request.DoUnlink?
    ensures SamePlaces(s.tasks, Serve(s, setup, request).value.tasks)
  {
    FrozenByLink(s, setup, request);
  }

  /** One accepted request does to every sorted scope exactly what the plain
      list does, a new subtask that would not come last being the only exception. */
  lemma ServeFollows(s: State, setup: Setup, request: Request, scope: Scope)
    requires Tidy(s, setup) && Serve(s, setup, request).Ok?
    ensures var after := Serve(s, setup, request).value.tasks;
            Follows(s.tasks, after, request, scope, Expected(s, request, scope)) && PositionsInRange(after)
  {
    match request
    case DoCreate(id, draft) => CreateFollows(s, setup, id, draft, scope);
    case DoMove(id, move) => MoveFollows(s, setup, id, move, scope);
    case DoPromote(id, asked) => PromoteFollows(s, setup, id, asked, scope);
    case DoDelete(id, now) => DeleteFollows(s, setup, id, now, scope);
    case DoComplete(id, now) =>
      CompleteStays(s, setup, id, now);
      StayingFollows(s, Serve(s, setup, request).value.tasks, request, scope);
    case DoReopen(id) =>
      ReopenStays(s, id);
      StayingFollows(s, Serve(s, setup, request).value.tasks, request, scope);
    case DoUpdate(id, patch) =>
      UpdateStays(s, id, patch);
      StayingFollows(s, Serve(s, setup, request).value.tasks, request, scope);
    case _ =>
      LinkStays(s, setup, request);
      StayingFollows(s, Serve(s, setup, request).value.tasks, request, scope);
  }

  // ---------- whole runs ----------

  /** No scope ever outgrows the arithmetic. */
  ghost predicate StaysSmall(setup: Setup, requests: seq<Request>) {
    forall k :: 0 <= k <= |requests| ==> SmallScopes(At(setup, requests, k).tasks)
  }

  ghost predicate InOrderAt(setup: Setup, requests: seq<Request>, k: nat, scope: Scope)
    requires k < |requests|
  {
    var s := At(setup, requests, k);
    Serve(s, setup, requests[k]).Ok? ==> AppendsInOrder(s.tasks, requests[k], scope)
  }

  ghost predicate ApartAt(setup: Setup, requests: seq<Request>, k: nat, scope: Scope)
    requires k < |requests|
  {
    var s := At(setup, requests, k);
    Serve(s, setup, requests[k]).Ok? ==> AppendsApart(s.tasks, requests[k], scope)
  }

  /** Every subtask added under this parent was due to be listed last. */
  ghost predicate AlwaysInOrder(setup: Setup, requests: seq<Request>, scope: Scope) {
    forall k :: 0 <= k < |requests| ==> InOrderAt(setup, requests, k, scope)
  }

  /** Every subtask added under this parent found the end free. */
  ghost predicate AlwaysApart(setup: Setup, requests: seq<Request>, scope: Scope) {
    forall k :: 0 <= k < |requests| ==> ApartAt(setup, requests, k, scope)
  }

  /** After k requests the scope sorts to its plain list. */
  ghost predicate ListedAt(setup: Setup, requests: seq<Request>, k: nat, scope: Scope)
    requires k <= |requests|
  {
    SlotIds(Listing(At(setup, requests, k).tasks, scope)) == ListRun(setup, requests[..k], scope)
  }

  /** After k requests no two positions of the scope tie. */
  ghost predicate StrictAt(setup: Setup, requests: seq<Request>, k: nat, scope: Scope)
    requires k <= |requests|
  {
    StrictlyIncreasing(Listing(At(setup, requests, k).tasks, scope))
  }

  /** What one request of a run did to a scope. */
  ghost predicate Stepped(s: State, setup: Setup, request: Request, after: Rows, scope: Scope) {
    && (Serve(s, setup, request).Ok? ==> Follows(s.tasks, after, request, scope, Expected(s, request, scope)))
    && (Serve(s, setup, request).Err? ==> after == s.tasks)
  }

  lemma NextSteps(s: State, setup: Setup, request: Request, scope: Scope)
    requires Tidy(s, setup)
    ensures Stepped(s, setup, request, Next(s, setup, request).tasks, scope)
    ensures PositionsInRange(Next(s, setup, request).tasks)
  {
    if Serve(s, setup, request).Ok? {
      ServeFollows(s, setup, request, scope);
    }
  }

  lemma StepAt(setup: Setup, requests: seq<Request>, k: nat, scope: Scope)
    requires StaysSmall(setup, requests) && k < |requests| && PositionsInRange(At(setup, requests, k).tasks)
    ensures Stepped(At(setup, requests, k), setup, requests[k], At(setup, requests, k + 1).tasks, scope)
    ensures PositionsInRange(At(setup, requests, k + 1).tasks)
  {
    EveryRunKeepsInv(setup, requests[..k]);
    NextAt(setup, requests, k);
    NextSteps(At(setup, requests, k), setup, requests[k], scope);
  }

  /** In every reachable state every live task stands between 1 and 2^30, so
      that no int32 operation of Place ever leaves its range. */
  lemma {:induction false} PositionsStayInRange(setup: Setup, requests: seq<Request>, k: nat)
    requires StaysSmall(setup, requests) && k <= |requests|
    ensures PositionsInRange(At(setup, requests, k).tasks)
  {
    if k > 0 {
      PositionsStayInRange(setup, requests, k - 1);
      StepAt(setup, requests, k - 1, InQuadrant(ImportantUrgent));
    }
  }

  lemma NothingListed(setup: Setup, requests: seq<Request>, scope: Scope)
    ensures |Listing(At(setup, requests, 0).tasks, scope)| == 0
  {
    ListingSlots(At(setup, requests, 0).tasks, scope);
    assert Members(At(setup, requests, 0).tasks, scope) == {};
  }

  /** From one listed state to the next: exactly under the guard. */
  lemma ListedStep(setup: Setup, requests: seq<Request>, k: nat, scope: Scope)
    requires StaysSmall(setup, requests) && k < |requests| && ListedAt(setup, requests, k, scope)
    ensures ListedAt(setup, requests, k + 1, scope) <==> InOrderAt(setup, requests, k, scope)
  {
    PositionsStayInRange(setup, requests, k);
    StepAt(setup, requests, k, scope);
    assert requests[..k + 1][..k] == requests[..k];
  }

  lemma StrictStep(setup: Setup, requests: seq<Request>, k: nat, scope: Scope)
    requires StaysSmall(setup, requests) && k < |requests| && StrictAt(setup, requests, k, scope)
    ensures StrictAt(setup, requests, k + 1, scope) <==> ApartAt(setup, requests, k, scope)
  {
    PositionsStayInRange(setup, requests, k);
    StepAt(setup, requests, k, scope);
  }

  lemma {:induction false} ListedUpTo(setup: Setup, requests: seq<Request>, k: nat, scope: Scope)
    requires StaysSmall(setup, requests) && AlwaysInOrder(setup, requests, scope) && k <= |requests|
    ensures ListedAt(setup, requests, k, scope)
  {
    if k == 0 {
      NothingListed(setup, requests, scope);
    } else {
      ListedUpTo(setup, requests, k - 1, scope);
      ListedStep(setup, requests, k - 1, scope);
      assert InOrderAt(setup, requests, k - 1, scope);
    }
  }

  lemma {:induction false} StrictUpTo(setup: Setup, requests: seq<Request>, k: nat, scope: Scope)
    requires StaysSmall(setup, requests) && AlwaysApart(setup, requests, scope) && k <= |requests|
    ensures StrictAt(setup, requests, k, scope)
  {
    if k == 0 {
      NothingListed(setup, requests, scope);
    } else {
      StrictUpTo(setup, requests, k - 1, scope);
      StrictStep(setup, requests, k - 1, scope);
      assert ApartAt(setup, requests, k - 1, scope);
    }
  }

  /** The refinement: all along a run, sorting a scope by position gives the
      list obtained by plain insertion, appending and removal, if and only if
      no subtask was added to this scope where it could not come last. */
  lemma PositionsRefineLists(setup: Setup, requests: seq<Request>, scope: Scope)
    requires StaysSmall(setup, requests)
    ensures AlwaysInOrder(setup, requests, scope) <==> forall k :: 0 <= k <= |requests| ==> ListedAt(setup, requests, k, scope)
  {
    if AlwaysInOrder(setup, requests, scope) {
      forall k | 0 <= k <= |requests|
        ensures ListedAt(setup, requests, k, scope)
      {
        ListedUpTo(setup, requests, k, scope);
      }
    }
    if forall k :: 0 <= k <= |requests| ==> ListedAt(setup, requests, k, scope) {
      forall k | 0 <= k < |requests|
        ensures InOrderAt(setup, requests, k, scope)
      {
        assert ListedAt(setup, requests, k, scope) && ListedAt(setup, requests, k + 1, scope);
        ListedStep(setup, requests, k, scope);
      }
    }
  }

  /** All along a run no two positions of a scope tie, if and only if every
      subtask added to it found the end free. */
  lemma PositionsNeverTie(setup: Setup, requests: seq<Request>, scope: Scope)
    requires StaysSmall(setup, requests)
    ensures AlwaysApart(setup, requests, scope) <==> forall k :: 0 <= k <= |requests| ==> StrictAt(setup, requests, k, scope)
  {
    if AlwaysApart(setup, requests, scope) {
      forall k | 0 <= k <= |requests|
        ensures StrictAt(setup, requests, k, scope)
      {
        StrictUpTo(setup, requests, k, scope);
      }
    }
    if forall k :: 0 <= k <= |requests| ==> StrictAt(setup, requests, k, scope) {
      forall k | 0 <= k < |requests|
        ensures ApartAt(setup, requests, k, scope)
      {
        assert StrictAt(setup, requests, k, scope) && StrictAt(setup, requests, k + 1, scope);
        StrictStep(setup, requests, k, scope);
      }
    }
  }

  /** A quadrant needs no such condition. */
  lemma QuadrantsRefineLists(setup: Setup, requests: seq<Request>, quadrant: Quadrant, k: nat)
    requires StaysSmall(setup, requests) && k <= |requests|
    ensures ListedAt(setup, requests, k, InQuadrant(quadrant)) && StrictAt(setup, requests, k, InQuadrant(quadrant))
  {
    ListedUpTo(setup, requests, k, InQuadrant(quadrant));
    StrictUpTo(setup, requests, k, InQuadrant(quadrant));
  }
}
