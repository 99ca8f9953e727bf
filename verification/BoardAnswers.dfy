/** Which requests are accepted and what the others answer, read off the rows'
    own fields; what a link is stored as; which achievements an account holds;
    and what order a list is in. */
module BoardAnswers {
  import opened Types
  import opened Position
  import opened Tasks
  import opened Scopes
  import opened Board
  import opened BoardInvariants
  import opened BoardRequests
  import opened BoardMoves
  import opened BoardLinks

  // ---------- the order of a list ----------

  /** A quadrant lists its live top-level tasks, each once, lowest position
      first and, where positions tie, lowest id first. */
  lemma QuadrantListing(tasks: Rows, quadrant: Quadrant)
    ensures var l := Listing(tasks, InQuadrant(quadrant));
            && (forall id, position :: Slot(id, position) in l <==>
                  && id in tasks && tasks[id].deletedAt.None? && tasks[id].parent.None?
                  && tasks[id].quadrant == Some(quadrant) && tasks[id].position == position)
            && InOrder(l)
  {
    ListingHolds(tasks, InQuadrant(quadrant));
  }

  /** A parent lists its live subtasks in the same way. */
  lemma SubtaskListing(tasks: Rows, parent: Id)
    ensures var l := Listing(tasks, UnderParent(parent));
            && (forall id, position :: Slot(id, position) in l <==>
                  && id in tasks && tasks[id].deletedAt.None? && tasks[id].parent == Some(parent)
                  && tasks[id].position == position)
            && InOrder(l)
  {
    ListingHolds(tasks, UnderParent(parent));
  }

  ghost predicate InOrder(l: seq<Slot>) {
    forall i, j :: 0 <= i < j < |l| ==>
      l[i].position < l[j].position || (l[i].position == l[j].position && l[i].id < l[j].id)
  }

  // ---------- creating ----------

  /** What a free account's limit counts: the tasks and subtasks still to be done. */
  ghost function OpenRows(tasks: Rows): set<Id> {
    set id | id in tasks && tasks[id].deletedAt.None? && tasks[id].status == Active
  }

  predicate ThereIs(tasks: Rows, id: Id) {
    id in tasks && tasks[id].deletedAt.None?
  }

  lemma CreateAnswersWithRoom(s: State, setup: Setup, id: Id, draft: Draft)
    requires TreeOK(s.tasks) && RowsOK(s.tasks) && !PlanIsFull(s, setup)
    ensures var r := Create(s, setup, id, draft);
            if draft.parent.Some? && !ThereIs(s.tasks, draft.parent.value) then r == Err(TaskNotFound)
            else if draft.parent.Some? && s.tasks[draft.parent.value].parent.Some? then r == Err(NestingNotAllowed)
            else if draft.parent.None? && !draft.quadrant.Known? then r == Err(ValidationFailed)
            else if !draft.wellFormed || id == 0 || id in s.tasks then r == Err(ValidationFailed)
            else r.Ok?
  {
    if Acceptable(s, setup, id, draft) {
      CreateAccepts(s, setup, id, draft);
    } else {
      CreateRefuses(s, setup, id, draft);
    }
  }

  lemma FullPlanRefuses(s: State, setup: Setup, id: Id, draft: Draft)
    ensures setup.plan == Free && |OpenRows(s.tasks)| >= 5 <==> PlanIsFull(s, setup)
    ensures PlanIsFull(s, setup) ==> Create(s, setup, id, draft) == Err(QuotaLimitReached)
  {
    assert OpenRows(s.tasks) == set id | id in s.tasks && s.tasks[id].deletedAt.None? && s.tasks[id].status == Active;
  }

  /** Which drafts become tasks: a free account has at most five open rows; a
      parent is there and is no subtask; without a parent a quadrant is named;
      the texts are in order and the id is new. Then one creation is counted. */
  lemma CreateAnswers(s: State, setup: Setup, id: Id, draft: Draft)
    requires Inv(s, setup)
    ensures var r := Serve(s, setup, DoCreate(id, draft));
            if setup.plan == Free && |OpenRows(s.tasks)| >= 5 then r == Err(QuotaLimitReached)
            else if draft.parent.Some? && !ThereIs(s.tasks, draft.parent.value) then r == Err(TaskNotFound)
            else if draft.parent.Some? && s.tasks[draft.parent.value].parent.Some? then r == Err(NestingNotAllowed)
            else if draft.parent.None? && !draft.quadrant.Known? then r == Err(ValidationFailed)
            else if !draft.wellFormed || id == 0 || id in s.tasks then r == Err(ValidationFailed)
            else r.Ok?
  {
    FullPlanRefuses(s, setup, id, draft);
    if !PlanIsFull(s, setup) {
      CreateAnswersWithRoom(s, setup, id, draft);
    }
  }

  /** An accepted creation counts once, and writes nothing else down. */
  lemma CreateCounts(s: State, setup: Setup, id: Id, draft: Draft)
    requires Inv(s, setup) && Serve(s, setup, DoCreate(id, draft)).Ok?
    ensures var r := Serve(s, setup, DoCreate(id, draft)).value;
            && r.stats == s.stats.(tasksCreated := s.stats.tasksCreated + 1)
            && r.ledger == s.ledger && r.held == s.held && r.links == s.links
  {
    CreateOutcome(s, setup, id, draft);
  }

  // ---------- completing, reopening, promoting ----------

  /** What can be completed: an open task that is there. */
  lemma CompleteAnswers(s: State, setup: Setup, id: Id, now: int)
    requires Inv(s, setup)
    ensures var r := Serve(s, setup, DoComplete(id, now));
            if !ThereIs(s.tasks, id) then r == Err(TaskNotFound)
            else if s.tasks[id].status == Completed then r == Err(TaskAlreadyDone)
            else r.Ok?
  {
    CompleteOutcome(s, setup, id, now);
  }

  lemma ReopenAnswers(s: State, setup: Setup, id: Id)
    requires Inv(s, setup)
    ensures var r := Serve(s, setup, DoReopen(id));
            if !ThereIs(s.tasks, id) then r == Err(TaskNotFound)
            else if s.tasks[id].status == Active then r == Err(ValidationFailed)
            else r.Ok?
  {
    ReopenOutcome(s, setup, id);
  }

  lemma PromoteAnswers(s: State, setup: Setup, id: Id, asked: QuadrantArg)
    requires Inv(s, setup)
    ensures var r := Serve(s, setup, DoPromote(id, asked));
            if !ThereIs(s.tasks, id) then r == Err(TaskNotFound)
            else if s.tasks[id].parent.None? then r == Err(NotASubtask)
            else if asked == QuadrantArg.Unknown then r == Err(ValidationFailed)
            else r.Ok?
  {
    PromoteOutcome(s, setup, id, asked);
    if Live(s.tasks, id) {
      QuadrantResolves(s.tasks, id);
    }
  }

  // ---------- moving ----------

  /** A neighbour a move may name: another task of the list it goes to. */
  predicate StandsThere(tasks: Rows, id: Id, move: Move, neighbour: Id) {
    && neighbour != id && ThereIs(tasks, neighbour)
    && (if move.parent.Some? then tasks[neighbour].parent == move.parent
        else tasks[neighbour].parent == None && move.quadrant.Known? && tasks[neighbour].quadrant == Some(move.quadrant.quadrant))
  }

  lemma {:induction false} RemovedHolds(slots: seq<Slot>, id: Id)
    ensures forall s :: s in Removed(slots, id) <==> s in slots && s.id != id
  {
    if |slots| > 0 {
      RemovedHolds(slots[..|slots| - 1], id);
      assert slots == slots[..|slots| - 1] + [slots[|slots| - 1]];
    }
  }

  /** The list a move goes to holds exactly the neighbours it may name. */
  lemma NeighboursStandThere(tasks: Rows, id: Id, move: Move, scope: Scope, neighbour: Id)
    requires Live(tasks, id) && Destination(tasks[id], move) == Ok(scope)
    ensures (exists s :: s in Removed(Listing(tasks, scope), id) && s.id == neighbour) <==> StandsThere(tasks, id, move, neighbour)
  {
    RemovedHolds(Listing(tasks, scope), id);
    ListingHolds(tasks, scope);
    if StandsThere(tasks, id, move, neighbour) {
      assert Slot(neighbour, tasks[neighbour].position) in Listing(tasks, scope);
    }
  }

  /** Which destinations a move may name. */
  lemma DestinationAnswers(item: Task, move: Move)
    ensures var r := Destination(item, move);
            if move.parent.Some? && !move.quadrant.Absent? then r == Err(ValidationFailed)
            else if move.parent.Some? && item.parent.None? then r == Err(NotASubtask)
            else if move.parent.Some? && item.parent != move.parent then r == Err(ValidationFailed)
            else if move.parent.None? && !move.quadrant.Known? then r == Err(ValidationFailed)
            else r.Ok?
  {
  }

  lemma NeighbourAnswers(tasks: Rows, id: Id, move: Move, scope: Scope)
    requires Live(tasks, id) && Destination(tasks[id], move) == Ok(scope)
    ensures var r := Placing(Removed(Listing(tasks, scope), id), move.before, move.after);
            if move.before.Some? && move.after.Some? then r == Err(ValidationFailed)
            else if move.before.Some? && !StandsThere(tasks, id, move, move.before.value) then r == Err(TaskNotFound)
            else if move.after.Some? && !StandsThere(tasks, id, move, move.after.value) then r == Err(TaskNotFound)
            else r.Ok?
  {
    var rest := Removed(Listing(tasks, scope), id);
    PlacingAnswers(rest, move.before, move.after);
    var index := TargetIndex(rest, move.before, move.after);
    if move.before.Some? && move.after.None? {
      NeighboursStandThere(tasks, id, move, scope, move.before.value);
      assert index.Ok? ==> rest[index.value] in rest;
    }
    if move.after.Some? && move.before.None? {
      NeighboursStandThere(tasks, id, move, scope, move.after.value);
      assert index.Ok? ==> rest[index.value - 1] in rest;
    }
  }

  /** Which moves are accepted: an open task that is there goes to the one
      quadrant named, or stays under the parent it has, beside at most one other
      task of that list. */
  lemma MoveAnswers(s: State, setup: Setup, id: Id, move: Move)
    requires Inv(s, setup)
    ensures var r := Serve(s, setup, DoMove(id, move));
            if !ThereIs(s.tasks, id) then r == Err(TaskNotFound)
            else if s.tasks[id].status == Completed then r == Err(CompletedTaskFrozen)
            else if move.parent.Some? && !move.quadrant.Absent? then r == Err(ValidationFailed)
            else if move.parent.Some? && s.tasks[id].parent.None? then r == Err(NotASubtask)
            else if move.parent.Some? && s.tasks[id].parent != move.parent then r == Err(ValidationFailed)
            else if move.parent.None? && !move.quadrant.Known? then r == Err(ValidationFailed)
            else if move.before.Some? && move.after.Some? then r == Err(ValidationFailed)
            else if move.before.Some? && !StandsThere(s.tasks, id, move, move.before.value) then r == Err(TaskNotFound)
            else if move.after.Some? && !StandsThere(s.tasks, id, move, move.after.value) then r == Err(TaskNotFound)
            else r.Ok?
  {
    MoveIsAnswered(s, setup, id, move);
    if ThereIs(s.tasks, id) && s.tasks[id].status == Active {
      DestinationAnswers(s.tasks[id], move);
      if Destination(s.tasks[id], move).Ok? {
        NeighbourAnswers(s.tasks, id, move, Destination(s.tasks[id], move).value);
      }
    }
  }

  lemma MoveIsAnswered(s: State, setup: Setup, id: Id, move: Move)
    requires Inv(s, setup)
    ensures var r := MoveTask(s, id, move);
            if !ThereIs(s.tasks, id) then r == Err(TaskNotFound)
            else if s.tasks[id].status == Completed then r == Err(CompletedTaskFrozen)
            else if Destination(s.tasks[id], move).Err? then r == Err(Destination(s.tasks[id], move).code)
            else
              var placed := Placing(Removed(Listing(s.tasks, Destination(s.tasks[id], move).value), id), move.before, move.after);
              if placed.Err? then r == Err(placed.code) else r.Ok?
  {
    MoveOutcome(s, setup, id, move);
  }

  /** An edit changes the two deadline fields of an open task, as it says. */
  lemma UpdateAnswers(s: State, setup: Setup, id: Id, patch: Patch)
    requires Inv(s, setup)
    ensures var r := Serve(s, setup, DoUpdate(id, patch));
            if !ThereIs(s.tasks, id) then r == Err(TaskNotFound)
            else if s.tasks[id].status == Completed then r == Err(CompletedTaskFrozen)
            else if !patch.wellFormed then r == Err(ValidationFailed)
            else
              var t := s.tasks[id];
              var deadline := if patch.clearDeadline then None else if patch.deadline.Some? then patch.deadline else t.deadline;
              var hasTime := deadline.Some? && patch.deadlineHasTime.GetOr(t.deadlineHasTime);
              r == Ok(s.(tasks := s.tasks[id := t.(deadline := deadline, deadlineHasTime := hasTime)]))
  {
    UpdateOutcome(s, setup, id, patch);
    if ThereIs(s.tasks, id) {
      TimeNeedsADeadline(s.tasks, id, patch);
    }
  }

  lemma TimeNeedsADeadline(tasks: Rows, id: Id, patch: Patch)
    requires RowsOK(tasks) && id in tasks
    ensures var t := tasks[id];
            var deadline := if patch.clearDeadline then None else if patch.deadline.Some? then patch.deadline else t.deadline;
            ApplyPatch(t, patch)
            == t.(deadline := deadline, deadlineHasTime := deadline.Some? && patch.deadlineHasTime.GetOr(t.deadlineHasTime))
  {
    assert RowOK(tasks[id]);
  }

  // ---------- links ----------

  /** A link of a type that reads the same both ways. */
  predicate ReadsBothWays(kind: LinkType) {
    kind == Related || kind == ConnectedTo
  }

  /** The type a request asks for; none is RELATED. */
  function AskedFor(kind: KindArg): LinkType {
    match kind
    case KindOf(k) => k
    case NoKind => Related
    case BadKind => Related
  }

  /** The link already says it. */
  predicate SaysIt(link: Link, source: Id, target: Id, kind: LinkType) {
    && link.kind == kind
    && (|| (link.source == source && link.target == target)
        || (ReadsBothWays(kind) && link.source == target && link.target == source))
  }

  ghost predicate SaidElsewhere(links: map<Id, Link>, id: Id, source: Id, target: Id, kind: LinkType) {
    exists k :: k in links && k != id && SaysIt(links[k], source, target, kind)
  }

  lemma SameEndsReads(link: Link, source: Id, target: Id, kind: LinkType)
    ensures SameEnds(link, Link(source, target, kind)) <==> SaysIt(link, source, target, kind)
  {
  }

  lemma DuplicatesReads(links: map<Id, Link>, id: Id, source: Id, target: Id, kind: LinkType)
    ensures Duplicates(links, id, Link(source, target, kind)) <==> SaidElsewhere(links, id, source, target, kind)
  {
    var made := Link(source, target, kind);
    if Duplicates(links, id, made) {
      var k :| k in links && k != id && SameEnds(links[k], made);
      SameEndsReads(links[k], source, target, kind);
    }
    if SaidElsewhere(links, id, source, target, kind) {
      var k :| k in links && k != id && SaysIt(links[k], source, target, kind);
      SameEndsReads(links[k], source, target, kind);
    }
  }

  /** Which links can be drawn, in the order the checks are made: the request is
      well formed; the ends differ, are there, and are not parent and child; a
      free account has five at most; no link says it already; the id is new. */
  lemma LinkAnswers(s: State, setup: Setup, id: Id, source: Id, target: Id, kind: KindArg)
    ensures var r := Serve(s, setup, DoLink(id, source, target, kind));
            if kind.BadKind? || id == 0 || source == 0 || target == 0 then r == Err(ValidationFailed)
            else if source == target then r == Err(SelfLink)
            else if !ThereIs(s.tasks, source) || !ThereIs(s.tasks, target) then r == Err(TaskNotFound)
            else if s.tasks[source].parent == Some(target) || s.tasks[target].parent == Some(source) then r == Err(DuplicateLink)
            else if setup.plan == Free && |s.links| >= 5 then r == Err(QuotaLimitReached)
            else if SaidElsewhere(s.links, id, source, target, AskedFor(kind)) then r == Err(DuplicateLink)
            else if id in s.links then r == Err(ValidationFailed)
            else r.Ok?
  {
    DuplicatesReads(s.links, id, source, target, SentKind(kind));
  }

  /** A link drawn is stored with the ends and the type sent, and counted. */
  lemma LinkIsStored(s: State, setup: Setup, id: Id, source: Id, target: Id, kind: KindArg)
    requires Serve(s, setup, DoLink(id, source, target, kind)).Ok?
    ensures var r := Serve(s, setup, DoLink(id, source, target, kind)).value;
            && r.links == s.links[id := Link(source, target, AskedFor(kind))]
            && r.stats.linksCreated == s.stats.linksCreated + 1
            && r.tasks == s.tasks && r.ledger == s.ledger
  {
  }

  lemma RetypeAnswers(s: State, setup: Setup, id: Id, kind: KindArg)
    ensures var r := Serve(s, setup, DoRetype(id, kind));
            if id !in s.links then r == Err(TaskNotFound)
            else if !kind.KindOf? then r == Err(ValidationFailed)
            else if SaidElsewhere(s.links, id, s.links[id].source, s.links[id].target, kind.kind) then r == Err(DuplicateLink)
            else r == Ok(s.(links := s.links[id := Link(s.links[id].source, s.links[id].target, kind.kind)]))
  {
    if id in s.links && kind.KindOf? {
      DuplicatesReads(s.links, id, s.links[id].source, s.links[id].target, kind.kind);
    }
  }

  // ---------- achievements ----------

  /** The tasks completed in the first quadrant, reopened and deleted ones apart. */
  ghost function DoneInFirst(tasks: Rows): set<Id> {
    set id | id in tasks && tasks[id].deletedAt.None? && tasks[id].quadrantAtCompletion == Some(ImportantUrgent)
  }

  /** What a catalogue row watches stands at its threshold or past it. */
  ghost predicate Entitled(s: State, a: Achievement) {
    match a.metric
    case None => false
    case Some(TasksCompleted) => a.threshold <= s.stats.tasksCompleted + s.stats.subtasksCompleted
    case Some(Q1TasksCompleted) => a.threshold <= |DoneInFirst(s.tasks)|
    case Some(LifetimeXP) => a.threshold <= s.stats.lifetimeXP
    case Some(Level) => a.threshold <= s.stats.level
    case Some(LongestStreak) => a.threshold <= s.stats.longestStreak
    case Some(LinksCreated) => a.threshold <= s.stats.linksCreated
    case Some(GraphOpenedDays) => a.threshold <= s.stats.graphOpenedDays
  }

  lemma EntitledIsEarned(s: State, a: Achievement)
    ensures Earned(ReadMetrics(s), a) <==> Entitled(s, a)
  {
    assert DoneInFirst(s.tasks) == set id | id in s.tasks && s.tasks[id].deletedAt.None?
                                            && s.tasks[id].quadrantAtCompletion == Some(ImportantUrgent);
  }

  lemma {:induction false} EarnedIdsHold(m: Metrics, catalogue: seq<Achievement>, id: Id)
    ensures id in EarnedIds(m, catalogue) <==> exists i :: 0 <= i < |catalogue| && catalogue[i].id == id && Earned(m, catalogue[i])
    decreases |catalogue|
  {
    if |catalogue| > 0 {
      var rest := catalogue[1..];
      EarnedIdsHold(m, rest, id);
      if id in EarnedIds(m, rest) {
        var i :| 0 <= i < |rest| && rest[i].id == id && Earned(m, rest[i]);
        assert catalogue[i + 1] == rest[i];
      }
      if i :| 0 < i < |catalogue| && catalogue[i].id == id && Earned(m, catalogue[i]) {
        assert rest[i - 1] == catalogue[i];
      }
    }
  }

  /** An account entitled to a catalogue row of this id. */
  ghost predicate EntitledTo(s: State, setup: Setup, id: Id) {
    exists i :: 0 <= i < |setup.catalogue| && setup.catalogue[i].id == id && Entitled(s, setup.catalogue[i])
  }

  lemma HeldAfter(s: State, setup: Setup, id: Id)
    ensures id in Evaluate(s, setup).held <==> id in s.held || EntitledTo(s, setup, id)
  {
    EvaluateHoldsTheEarned(s, setup);
    EarnedIdsHold(ReadMetrics(s), setup.catalogue, id);
    forall i | 0 <= i < |setup.catalogue|
      ensures Earned(ReadMetrics(s), setup.catalogue[i]) <==> Entitled(s, setup.catalogue[i])
    {
      EntitledIsEarned(s, setup.catalogue[i]);
    }
  }

  /** Evaluating moves nothing an entitlement is read from. */
  lemma EvaluateKeepsEntitlement(s: State, setup: Setup, a: Achievement)
    ensures Entitled(Evaluate(s, setup), a) <==> Entitled(s, a)
  {
    EvaluateHoldsTheEarned(s, setup);
  }

  lemma EntitledAsBefore(s: State, setup: Setup, id: Id)
    ensures EntitledTo(Evaluate(s, setup), setup, id) <==> EntitledTo(s, setup, id)
  {
    forall i | 0 <= i < |setup.catalogue|
      ensures Entitled(Evaluate(s, setup), setup.catalogue[i]) <==> Entitled(s, setup.catalogue[i])
    {
      EvaluateKeepsEntitlement(s, setup, setup.catalogue[i]);
    }
  }

  /** A completion or a link leaves the account holding what it held and exactly
      what it is entitled to in the state it leaves. */
  lemma UnlocksExactlyTheEntitled(s: State, setup: Setup, request: Request, id: Id)
    requires request.DoComplete? || request.DoLink?
    requires Serve(s, setup, request).Ok?
    ensures var r := Serve(s, setup, request).value; id in r.held <==> id in s.held || EntitledTo(r, setup, id)
  {
    match request
    case DoComplete(task, now) =>
      HoldsTheEntitled(s, setup, Settle(s, CompleteWork(s, task, now).value), id);
    case DoLink(link, source, target, kind) =>
      CreateLinkDecides(s, setup, link, source, target, kind);
      HoldsTheEntitled(s, setup, Drawn(s, link, Link(source, target, SentKind(kind))), id);
  }

  lemma HoldsTheEntitled(s: State, setup: Setup, before: State, id: Id)
    requires before.held == s.held
    ensures var r := Evaluate(before, setup); id in r.held <==> id in s.held || EntitledTo(r, setup, id)
  {
    HeldAfter(before, setup, id);
    EntitledAsBefore(before, setup, id);
  }
}
