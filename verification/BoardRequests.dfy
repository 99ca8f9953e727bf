/** What each request does to an account that is in order, and that it leaves it in order. */
module BoardRequests {
  import opened Types
  import opened Tasks
  import opened Scopes
  import opened Ledger
  import opened Progression
  import opened Board
  import opened BoardInvariants

  // ---------- shared steps ----------

  /** A live task can always be priced: ORPHANED_NODE is unreachable. */
  lemma QuadrantResolves(tasks: Rows, id: Id)
    requires TreeOK(tasks) && Live(tasks, id)
    ensures var t, r := tasks[id], ResolveQuadrant(tasks, tasks[id]);
            && r.Ok?
            && (t.parent.None? ==> t.quadrant == Some(r.value))
            && (t.parent.Some? ==> t.parent.value in tasks && tasks[t.parent.value].quadrant == Some(r.value))
  {
    assert RowPlaced(tasks, id);
    if tasks[id].IsSubtask() {
      assert RowPlaced(tasks, tasks[id].parent.value);
    }
  }

  /** Moving the aggregate closes the books and sets the level. */
  lemma SettleCloses(s: State, w: Work)
    requires Books(w, s.stats, {}) && s.stats.level == LevelForXP(s.stats.lifetimeXP)
    ensures var r := Settle(s, w);
            && Books(Begin(r), r.stats, {})
            && r.stats.level == LevelForXP(r.stats.lifetimeXP)
            && r.stats.lifetimeXP == s.stats.lifetimeXP + w.delta.xp
            && r.stats.achievementsUnlocked == s.stats.achievementsUnlocked + w.delta.achievementsUnlocked
  {
  }

  /** Links care about which rows are live and whose subtasks they are, nothing else. */
  ghost predicate SameFamily(before: Rows, after: Rows) {
    forall id {:trigger Live(after, id)} :: Live(before, id) ==>
      Live(after, id) && (after[id].parent == before[id].parent || after[id].parent.None?)
  }

  lemma LinksFollowFamily(before: Rows, after: Rows, links: map<Id, Link>)
    requires LinksOK(before, links) && SameFamily(before, after)
    ensures LinksOK(after, links)
  {
    forall k | k in links
      ensures LinkOK(after, links[k])
    {
      assert Live(after, links[k].source) && Live(after, links[k].target);
    }
  }

  /** The invariant of the settled state from the invariant of its parts. */
  lemma SettleKeepsInv(s: State, setup: Setup, w: Work)
    requires Inv(s, setup) && WorkOK(w, s.stats) && SameFamily(s.tasks, w.tasks) && w.delta.achievementsUnlocked == 0
    ensures Inv(Settle(s, w), setup)
  {
    SettleCloses(s, w);
    LinksFollowFamily(s.tasks, w.tasks, s.links);
  }

  // ---------- Complete ----------

  /** The rows after a completion: the task, and the subtasks under it that were
      still open, each frozen with the same quadrant; nothing else moves. */
  ghost function CompletedRows(tasks: Rows, id: Id, quadrant: Quadrant, now: int): Rows
    requires id in tasks
  {
    map i | i in tasks ::
      (if i == id then AwardedRow(tasks[i], quadrant, Direct, now)
       else if tasks[id].parent.None? && i in Members(tasks, UnderParent(id)) && !tasks[i].IsCompleted()
       then AwardedRow(tasks[i], quadrant, ParentCascade, now)
       else tasks[i])
  }

  lemma CascadeReachesAllSubtasks(tasks: Rows, id: Id, quadrant: Quadrant, now: int, children: seq<Id>)
    requires TreeOK(tasks) && Live(tasks, id) && tasks[id].parent.None?
    requires forall i :: i in children <==> i in Members(tasks[id := AwardedRow(tasks[id], quadrant, Direct, now)], UnderParent(id))
    ensures CascadeRows(tasks[id := AwardedRow(tasks[id], quadrant, Direct, now)], children, quadrant, now)
            == CompletedRows(tasks, id, quadrant, now)
  {
    var first := tasks[id := AwardedRow(tasks[id], quadrant, Direct, now)];
    assert Members(first, UnderParent(id)) == Members(tasks, UnderParent(id));
  }

  lemma CompleteWorkSucceeds(s: State, id: Id, now: int)
    requires WorkOK(Begin(s), s.stats) && Live(s.tasks, id) && !s.tasks[id].IsCompleted()
    ensures var quadrant, r := ResolveQuadrant(s.tasks, s.tasks[id]), CompleteWork(s, id, now);
            quadrant.Ok? && r.Ok? && WorkOK(r.value, s.stats)
            && r.value.tasks == CompletedRows(s.tasks, id, quadrant.value, now)
            && r.value.delta.achievementsUnlocked == 0
  {
    QuadrantResolves(s.tasks, id);
    var quadrant := ResolveQuadrant(s.tasks, s.tasks[id]).value;
    if s.tasks[id].IsSubtask() {
      CompleteAlone(s, id, quadrant, now);
    } else {
      CompleteWhole(s, id, quadrant, now);
    }
  }

  lemma AloneWork(s: State, id: Id, quadrant: Quadrant, now: int)
    requires Live(s.tasks, id) && !s.tasks[id].IsCompleted() && s.tasks[id].IsSubtask()
    requires ResolveQuadrant(s.tasks, s.tasks[id]) == Ok(quadrant)
    ensures CompleteWork(s, id, now) == Award(Begin(s), id, quadrant, Direct, now)
  {
  }

  lemma AloneRows(s: State, id: Id, quadrant: Quadrant, now: int)
    requires id in s.tasks && s.tasks[id].IsSubtask()
    ensures Awarded(Begin(s), id, quadrant, Direct, now).tasks == CompletedRows(s.tasks, id, quadrant, now)
  {
  }

  lemma CompleteAlone(s: State, id: Id, quadrant: Quadrant, now: int)
    requires WorkOK(Begin(s), s.stats) && Live(s.tasks, id) && !s.tasks[id].IsCompleted() && s.tasks[id].IsSubtask()
    requires ResolveQuadrant(s.tasks, s.tasks[id]) == Ok(quadrant)
    ensures var r := CompleteWork(s, id, now);
            r.Ok? && WorkOK(r.value, s.stats) && r.value.tasks == CompletedRows(s.tasks, id, quadrant, now)
            && r.value.delta.achievementsUnlocked == 0
  {
    AwardKeeps(Begin(s), s.stats, id, quadrant, Direct, now);
    AloneWork(s, id, quadrant, now);
    AloneRows(s, id, quadrant, now);
  }

  lemma CompleteWhole(s: State, id: Id, quadrant: Quadrant, now: int)
    requires WorkOK(Begin(s), s.stats) && Live(s.tasks, id) && !s.tasks[id].IsCompleted() && !s.tasks[id].IsSubtask()
    requires ResolveQuadrant(s.tasks, s.tasks[id]) == Ok(quadrant)
    ensures var r := CompleteWork(s, id, now);
            r.Ok? && WorkOK(r.value, s.stats) && r.value.tasks == CompletedRows(s.tasks, id, quadrant, now)
            && r.value.delta.achievementsUnlocked == 0
  {
    AwardKeeps(Begin(s), s.stats, id, quadrant, Direct, now);
    CompleteCascades(s, id, quadrant, now);
  }

  lemma CompleteCascades(s: State, id: Id, quadrant: Quadrant, now: int)
    requires WorkOK(Begin(s), s.stats) && Live(s.tasks, id) && s.tasks[id].parent.None?
    requires WorkOK(Awarded(Begin(s), id, quadrant, Direct, now), s.stats)
    ensures var w := Awarded(Begin(s), id, quadrant, Direct, now);
            var r := Cascade(w, SlotIds(Listing(w.tasks, UnderParent(id))), quadrant, now);
            r.Ok? && WorkOK(r.value, s.stats) && r.value.tasks == CompletedRows(s.tasks, id, quadrant, now)
            && r.value.delta.achievementsUnlocked == 0
  {
    var w := Awarded(Begin(s), id, quadrant, Direct, now);
    var children := SlotIds(Listing(w.tasks, UnderParent(id)));
    ListingIds(w.tasks, UnderParent(id));
    CascadeCompletesTheOpen(w, s.stats, children, quadrant, now);
    CascadeTouchesNoAward(w, children, quadrant, now);
    CascadeReachesAllSubtasks(s.tasks, id, quadrant, now, children);
  }

  lemma {:induction false} CascadeTouchesNoAward(w: Work, children: seq<Id>, quadrant: Quadrant, now: int)
    ensures var r := Cascade(w, children, quadrant, now);
            r.Ok? ==> r.value.delta.achievementsUnlocked == w.delta.achievementsUnlocked
    decreases |children|
  {
    if |children| > 0 {
      if children[0] in w.tasks && w.tasks[children[0]].IsCompleted() {
        CascadeTouchesNoAward(w, children[1..], quadrant, now);
      } else {
        var next := Award(w, children[0], quadrant, ParentCascade, now);
        if next.Ok? {
          CascadeTouchesNoAward(next.value, children[1..], quadrant, now);
        }
      }
    }
  }

  lemma CompletedFamilyIsDone(tasks: Rows, id: Id, quadrant: Quadrant, now: int)
    requires TreeOK(tasks) && Live(tasks, id)
    ensures var after := CompletedRows(tasks, id, quadrant, now);
            && SameFamily(tasks, after)
            && after[id].IsCompleted()
            && (forall child :: child in Members(after, UnderParent(id)) ==> after[child].IsCompleted())
  {
    forall child | child in tasks && tasks[child].parent == Some(id)
      ensures tasks[id].parent.None?
    {
      assert RowPlaced(tasks, child);
    }
  }

  /** Completing is refused only for a task that is not there or already done.
      Otherwise the task and, under a parent, exactly the subtasks still open
      are completed, no other row or link changes, and the account is in order. */
  lemma CompleteOutcome(s: State, setup: Setup, id: Id, now: int)
    requires Inv(s, setup)
    ensures var r := Complete(s, setup, id, now);
      if !Live(s.tasks, id) then r == Err(TaskNotFound)
      else if s.tasks[id].IsCompleted() then r == Err(TaskAlreadyDone)
      else
        var quadrant := ResolveQuadrant(s.tasks, s.tasks[id]);
        && quadrant.Ok? && r.Ok? && Inv(r.value, setup)
        && r.value.tasks == CompletedRows(s.tasks, id, quadrant.value, now)
        && r.value.links == s.links
        && (forall child :: child in Members(r.value.tasks, UnderParent(id)) ==> r.value.tasks[child].IsCompleted())
  {
    if Live(s.tasks, id) && !s.tasks[id].IsCompleted() {
      CompleteWorkSucceeds(s, id, now);
      var w := CompleteWork(s, id, now).value;
      CompletedFamilyIsDone(s.tasks, id, ResolveQuadrant(s.tasks, s.tasks[id]).value, now);
      SettleKeepsInv(s, setup, w);
      EvaluateKeepsInv(Settle(s, w), setup);
      EvaluateHoldsTheEarned(Settle(s, w), setup);
    }
  }

  // ---------- Reopen ----------

  lemma UnfinishedRowOK(t: Task)
    requires RowOK(t)
    ensures RowOK(Unfinished(t))
  {
  }

  /** What a completed row in order was paid. */
  lemma PaidPositive(t: Task)
    requires RowOK(t) && t.IsCompleted()
    ensures t.xpAwarded.Some? && t.xpAwarded.value > 0
  {
    var isSubtask :| t.xpAwarded.value == Reward(t.quadrantAtCompletion.value, isSubtask);
    RewardPositive(t.quadrantAtCompletion.value, isSubtask);
  }

  function RevokeEntry(id: Id, granted: int, source: Source): Entry {
    Entry(id, -granted, source, 1, Revoked(granted))
  }

  /** A revoke is never mistaken for a grant. */
  lemma RevokeRecords(ledger: seq<Entry>, id: Id, granted: int, source: Source)
    requires Numbered(ledger) && granted > 0 && !IsGrant(source)
    ensures RevokeGranted(ledger, id, granted, source) == Ok(ledger + [RevokeEntry(id, granted, source)])
    ensures Numbered(ledger + [RevokeEntry(id, granted, source)])
  {
    NumberedAppend(ledger, RevokeEntry(id, granted, source));
  }

  lemma ReopenBooks(s: State, id: Id)
    requires WorkOK(Begin(s), s.stats) && Live(s.tasks, id) && s.tasks[id].IsCompleted()
    requires s.tasks[id].xpAwarded.Some? && s.tasks[id].xpAwarded.value > 0
    ensures var granted := s.tasks[id].xpAwarded.value;
            Books(Work(s.tasks[id := Unfinished(s.tasks[id])], s.ledger + [RevokeEntry(id, granted, TaskReopened)],
                       Paying(NO_DELTA, -granted, s.tasks[id].IsSubtask(), -1)), s.stats, {})
  {
    var row, granted := Unfinished(s.tasks[id]), s.tasks[id].xpAwarded.value;
    var entry := RevokeEntry(id, granted, TaskReopened);
    RevokeRecords(s.ledger, id, granted, TaskReopened);
    EntryKeepsSums(s.tasks, s.ledger, {}, entry, row);
    EntryKeepsTotal(s.ledger, s.stats, NO_DELTA, entry, s.tasks[id].IsSubtask(), -1, -granted);
    CompletedLoses(s.tasks, id, row);
    assert LiveCompleted(s.tasks[id := row]) - {} == LiveCompleted(s.tasks) - {} - {id};
  }

  /** The rows and the ledger with one completion taken back. */
  function Reopened(s: State, id: Id): Work
    requires id in s.tasks
  {
    var granted := s.tasks[id].xpAwarded.GetOr(0);
    Work(s.tasks[id := Unfinished(s.tasks[id])], s.ledger + [RevokeEntry(id, granted, TaskReopened)],
         Paying(NO_DELTA, -granted, s.tasks[id].IsSubtask(), -1))
  }

  lemma ReopenedRows(tasks: Rows, id: Id)
    requires TreeOK(tasks) && RowsOK(tasks) && Live(tasks, id) && tasks[id].IsCompleted()
    ensures var row := Unfinished(tasks[id]);
            && UpdateRow(tasks, id, row) == Ok(tasks[id := row])
            && TreeOK(tasks[id := row]) && RowsOK(tasks[id := row]) && SameFamily(tasks, tasks[id := row])
  {
    var row := Unfinished(tasks[id]);
    UnfinishedRowOK(tasks[id]);
    RewriteStorable(tasks, id, row);
    RewriteKeepsTree(tasks, id, row);
    RewriteKeepsRows(tasks, id, row);
  }

  lemma ReopenSucceeds(s: State, id: Id)
    requires Live(s.tasks, id) && s.tasks[id].IsCompleted() && Numbered(s.ledger)
    requires s.tasks[id].xpAwarded.Some? && s.tasks[id].xpAwarded.value > 0
    requires UpdateRow(s.tasks, id, Unfinished(s.tasks[id])) == Ok(s.tasks[id := Unfinished(s.tasks[id])])
    ensures ReopenWork(s, id) == Ok(Reopened(s, id))
  {
    RevokeRecords(s.ledger, id, s.tasks[id].xpAwarded.value, TaskReopened);
  }

  lemma ReopenKeepsInv(s: State, setup: Setup, id: Id)
    requires Inv(s, setup) && Live(s.tasks, id) && s.tasks[id].IsCompleted()
    ensures s.tasks[id].xpAwarded.Some? && ReopenWork(s, id) == Ok(Reopened(s, id))
    ensures Inv(Settle(s, Reopened(s, id)), setup)
  {
    PaidPositive(s.tasks[id]);
    ReopenedRows(s.tasks, id);
    ReopenSucceeds(s, id);
    ReopenBooks(s, id);
    SettleKeepsInv(s, setup, Reopened(s, id));
  }

  /** Reopening takes back exactly what that completion paid, and touches no other task. */
  lemma ReopenOutcome(s: State, setup: Setup, id: Id)
    requires Inv(s, setup)
    ensures var r := Reopen(s, id);
      if !Live(s.tasks, id) then r == Err(TaskNotFound)
      else if !s.tasks[id].IsCompleted() then r == Err(ValidationFailed)
      else
        && r.Ok? && Inv(r.value, setup)
        && r.value.tasks == s.tasks[id := Unfinished(s.tasks[id])]
        && s.tasks[id].xpAwarded.Some?
        && r.value.stats.lifetimeXP == s.stats.lifetimeXP - s.tasks[id].xpAwarded.value
        && r.value.held == s.held && r.value.links == s.links
  {
    if Live(s.tasks, id) && s.tasks[id].IsCompleted() {
      ReopenKeepsInv(s, setup, id);
    }
  }
}
