/** Deleting: what goes with a task, what is taken back for it, and that the
    account is left in order. */
module BoardRemovals {
  import opened Types
  import opened Scopes
  import opened Ledger
  import opened Board
  import opened BoardInvariants
  import opened BoardRequests

  // ---------- withdrawing ----------

  /** Withdrawing one task takes its payment and its count out of the books. */
  lemma WithdrawKeepsBooks(w: Work, stats: Stats, gone: set<Id>, id: Id)
    requires RowsOK(w.tasks) && Books(w, stats, gone) && Live(w.tasks, id) && id !in gone
    ensures var r := Withdraw(w, id);
            r.Ok? && r.value.tasks == w.tasks && Books(r.value, stats, gone + {id})
            && r.value.delta.achievementsUnlocked == w.delta.achievementsUnlocked
  {
    var item := w.tasks[id];
    if item.IsCompleted() {
      PaidPositive(item);
      var entry := RevokeEntry(id, item.xpAwarded.value, TaskDeleted);
      RevokeRecords(w.ledger, id, item.xpAwarded.value, TaskDeleted);
      EntryTakesOut(w.tasks, w.ledger, gone, entry);
      EntryKeepsTotal(w.ledger, stats, w.delta, entry, item.IsSubtask(), -1, -item.xpAwarded.value);
      assert LiveCompleted(w.tasks) - (gone + {id}) == (LiveCompleted(w.tasks) - gone) - {id};
    } else {
      assert LiveCompleted(w.tasks) - (gone + {id}) == LiveCompleted(w.tasks) - gone;
      assert SumsMatch(w.tasks, w.ledger, gone + {id});
    }
  }

  lemma EntryTakesOut(tasks: Rows, ledger: seq<Entry>, gone: set<Id>, entry: Entry)
    requires SumsMatch(tasks, ledger, gone) && EntriesKnown(tasks, ledger) && entry.task in tasks
    requires Paid(tasks, gone, entry.task) == -entry.amount
    ensures SumsMatch(tasks, ledger + [entry], gone + {entry.task})
    ensures EntriesKnown(tasks, ledger + [entry])
  {
    Appended(ledger, entry);
  }

  lemma {:induction false} WithdrawAllKeepsBooks(w: Work, stats: Stats, gone: set<Id>, doomed: seq<Id>)
    requires RowsOK(w.tasks) && Books(w, stats, gone) && AllLive(w.tasks, doomed) && Distinct(doomed)
    requires IdSet(doomed) !! gone
    ensures var r := WithdrawAll(w, doomed);
            r.Ok? && r.value.tasks == w.tasks && Books(r.value, stats, gone + IdSet(doomed))
            && r.value.delta.achievementsUnlocked == w.delta.achievementsUnlocked
    decreases |doomed|
  {
    if |doomed| == 0 {
      assert gone + IdSet(doomed) == gone;
    } else {
      var id, rest := doomed[0], doomed[1..];
      ListTail(w.tasks, doomed);
      HeadJoins(gone, doomed);
      WithdrawKeepsBooks(w, stats, gone, id);
      WithdrawAllKeepsBooks(Withdraw(w, id).value, stats, gone + {id}, rest);
    }
  }

  lemma HeadJoins(gone: set<Id>, ids: seq<Id>)
    requires |ids| > 0 && ids[0] !in ids[1..] && IdSet(ids) !! gone
    ensures ids[0] !in gone && IdSet(ids[1..]) !! gone + {ids[0]}
    ensures gone + {ids[0]} + IdSet(ids[1..]) == gone + IdSet(ids)
  {
    IdSetHolds(ids[1..]);
  }

  // ---------- marking deleted ----------

  lemma {:induction false} DistinctCount(ids: seq<Id>)
    requires Distinct(ids)
    ensures |IdSet(ids)| == |ids|
    decreases |ids|
  {
    if |ids| > 0 {
      DistinctCount(ids[1..]);
      IdSetHolds(ids[1..]);
    }
  }

  ghost function DeletedRows(tasks: Rows, doomed: set<Id>, now: int): Rows {
    map id | id in tasks :: if id in doomed then tasks[id].(deletedAt := Some(now)) else tasks[id]
  }

  /** Every named row is marked, each once, so the count the statement checks is right. */
  lemma SoftDeleteSucceeds(tasks: Rows, doomed: seq<Id>, now: int)
    requires AllLive(tasks, doomed) && Distinct(doomed)
    ensures SoftDelete(tasks, doomed, now) == Ok(DeletedRows(tasks, IdSet(doomed), now))
  {
    IdSetHolds(doomed);
    DistinctCount(doomed);
    var affected := set id | id in doomed && Live(tasks, id);
    assert affected == IdSet(doomed);
  }

  lemma DeletedRowsKeepBooks(w: Work, stats: Stats, gone: set<Id>, now: int)
    requires Books(w, stats, gone)
    ensures Books(w.(tasks := DeletedRows(w.tasks, gone, now)), stats, {})
  {
    var after := DeletedRows(w.tasks, gone, now);
    assert LiveCompleted(after) - {} == LiveCompleted(w.tasks) - gone;
    forall id | id in after
      ensures SumFor(w.ledger, id) == Paid(after, {}, id)
    {
      assert Paid(w.tasks, gone, id) == Paid(after, {}, id);
    }
  }

  /** A set of rows that takes all live subtasks of its members with it. */
  ghost predicate ClosedUnderSubtasks(tasks: Rows, doomed: set<Id>) {
    forall id :: Live(tasks, id) && tasks[id].parent.Some? && tasks[id].parent.value in doomed ==> id in doomed
  }

  lemma DeletedRowsKeepTree(tasks: Rows, doomed: set<Id>, now: int)
    requires TreeOK(tasks) && RowsOK(tasks) && ClosedUnderSubtasks(tasks, doomed)
    ensures TreeOK(DeletedRows(tasks, doomed, now)) && RowsOK(DeletedRows(tasks, doomed, now))
  {
    var after := DeletedRows(tasks, doomed, now);
    forall id | id in after
      ensures RowPlaced(after, id)
    {
      assert RowPlaced(tasks, id);
    }
  }

  // ---------- links ----------

  lemma {:induction false} SubsetSize(a: set<Id>, b: set<Id>)
    requires a <= b
    ensures |a| <= |b|
  {
    if a != {} {
      var x :| x in a;
      SubsetSize(a - {x}, b - {x});
    }
  }

  lemma LinksWithoutAreFewer(links: map<Id, Link>, doomed: seq<Id>)
    ensures |LinksWithout(links, doomed)| <= |links|
  {
    SubsetSize(LinksWithout(links, doomed).Keys, links.Keys);
  }

  lemma DeletedRowsKeepLinks(tasks: Rows, links: map<Id, Link>, doomed: seq<Id>, now: int)
    requires LinksOK(tasks, links)
    ensures LinksOK(DeletedRows(tasks, IdSet(doomed), now), LinksWithout(links, doomed))
  {
    IdSetHolds(doomed);
    var after, left := DeletedRows(tasks, IdSet(doomed), now), LinksWithout(links, doomed);
    forall k | k in left
      ensures LinkOK(after, left[k])
    {
      assert LinkOK(tasks, links[k]);
    }
  }

  /** The links with neither end among the rows that go. */
  ghost function LinksOutside(links: map<Id, Link>, gone: set<Id>): map<Id, Link> {
    map k | k in links && links[k].source !in gone && links[k].target !in gone :: links[k]
  }

  lemma LinksWithoutIsOutside(links: map<Id, Link>, doomed: seq<Id>)
    ensures LinksWithout(links, doomed) == LinksOutside(links, IdSet(doomed))
  {
    IdSetHolds(doomed);
  }

  // ---------- Delete ----------

  ghost predicate HasOpenSubtask(tasks: Rows, id: Id) {
    exists child :: child in Members(tasks, UnderParent(id)) && !tasks[child].IsCompleted()
  }

  /** The task and, for a parent, every live subtask under it. */
  ghost function Family(tasks: Rows, id: Id): set<Id> {
    {id} + Members(tasks, UnderParent(id))
  }

  lemma SubtaskHasNoSubtasks(tasks: Rows, id: Id)
    requires TreeOK(tasks) && Live(tasks, id)
    ensures tasks[id].parent.Some? ==> Members(tasks, UnderParent(id)) == {}
    ensures id !in Members(tasks, UnderParent(id))
  {
    forall child | child in Members(tasks, UnderParent(id))
      ensures tasks[id].parent.None? && child != id
    {
      assert RowPlaced(tasks, child);
    }
  }

  lemma ConsIds(tasks: Rows, id: Id, children: seq<Id>, members: set<Id>)
    requires Live(tasks, id) && AllLive(tasks, children) && Distinct(children) && id !in members
    requires forall c :: c in children <==> c in members
    ensures AllLive(tasks, [id] + children) && Distinct([id] + children)
    ensures IdSet([id] + children) == {id} + members
  {
    IdSetHolds(children);
    assert ([id] + children)[1..] == children;
  }

  /** Which rows a delete names: the whole family, unless some of it is still open. */
  lemma DoomedIsTheFamily(s: State, id: Id)
    requires TreeOK(s.tasks) && Live(s.tasks, id)
    ensures var r := Doomed(s, id);
      if HasOpenSubtask(s.tasks, id) then r == Err(HasActiveSubtasks)
      else r.Ok? && Distinct(r.value) && AllLive(s.tasks, r.value) && IdSet(r.value) == Family(s.tasks, id)
  {
    var members := Members(s.tasks, UnderParent(id));
    SubtaskHasNoSubtasks(s.tasks, id);
    if s.tasks[id].IsSubtask() {
      ConsIds(s.tasks, id, [], members);
      assert [id] + [] == [id];
    } else {
      ListingIds(s.tasks, UnderParent(id));
      DoomedParent(s, id, SlotIds(Listing(s.tasks, UnderParent(id))));
    }
  }

  lemma DoomedParent(s: State, id: Id, children: seq<Id>)
    requires Live(s.tasks, id) && s.tasks[id].parent.None? && id !in Members(s.tasks, UnderParent(id))
    requires children == SlotIds(Listing(s.tasks, UnderParent(id)))
    requires Distinct(children) && AllLive(s.tasks, children)
    requires forall c :: c in children <==> c in Members(s.tasks, UnderParent(id))
    ensures var r := Doomed(s, id);
      if HasOpenSubtask(s.tasks, id) then r == Err(HasActiveSubtasks)
      else r.Ok? && Distinct(r.value) && AllLive(s.tasks, r.value) && IdSet(r.value) == Family(s.tasks, id)
  {
    OpenAmongChildren(s.tasks, id, children);
    ConsIds(s.tasks, id, children, Members(s.tasks, UnderParent(id)));
  }

  lemma OpenAmongChildren(tasks: Rows, id: Id, children: seq<Id>)
    requires forall c :: c in children <==> c in Members(tasks, UnderParent(id))
    ensures HasOpenSubtask(tasks, id)
            <==> exists i :: 0 <= i < |children| && children[i] in tasks && !tasks[children[i]].IsCompleted()
  {
    if HasOpenSubtask(tasks, id) {
      var child :| child in Members(tasks, UnderParent(id)) && !tasks[child].IsCompleted();
      assert child in children;
    }
    if i :| 0 <= i < |children| && children[i] in tasks && !tasks[children[i]].IsCompleted() {
      assert children[i] in children;
    }
  }

  lemma FamilyIsClosed(tasks: Rows, id: Id)
    requires TreeOK(tasks)
    ensures ClosedUnderSubtasks(tasks, Family(tasks, id))
  {
    forall child | Live(tasks, child) && tasks[child].parent.Some? && tasks[child].parent.value in Family(tasks, id)
      ensures child in Family(tasks, id)
    {
      assert RowPlaced(tasks, child);
    }
  }

  lemma DeleteWork(s: State, id: Id, now: int, doomed: seq<Id>)
    requires WorkOK(Begin(s), s.stats) && Distinct(doomed) && AllLive(s.tasks, doomed)
    ensures var r := WithdrawAll(Begin(s), doomed);
            && r.Ok? && r.value.tasks == s.tasks && r.value.delta.achievementsUnlocked == 0
            && SoftDelete(s.tasks, doomed, now) == Ok(DeletedRows(s.tasks, IdSet(doomed), now))
            && Books(r.value.(tasks := DeletedRows(s.tasks, IdSet(doomed), now)), s.stats, {})
  {
    WithdrawAllKeepsBooks(Begin(s), s.stats, {}, doomed);
    assert {} + IdSet(doomed) == IdSet(doomed);
    SoftDeleteSucceeds(s.tasks, doomed, now);
    DeletedRowsKeepBooks(WithdrawAll(Begin(s), doomed).value, s.stats, IdSet(doomed), now);
  }

  lemma DeleteSucceeds(s: State, setup: Setup, id: Id, now: int, doomed: seq<Id>)
    requires Inv(s, setup) && Doomed(s, id) == Ok(doomed)
    requires Distinct(doomed) && AllLive(s.tasks, doomed) && IdSet(doomed) == Family(s.tasks, id)
    ensures var r := Delete(s, id, now);
            r.Ok? && Inv(r.value, setup)
            && r.value.tasks == DeletedRows(s.tasks, Family(s.tasks, id), now)
            && r.value.links == LinksOutside(s.links, Family(s.tasks, id))
            && r.value.held == s.held
  {
    LinksWithoutIsOutside(s.links, doomed);
    DeleteWork(s, id, now, doomed);
    var after := DeletedRows(s.tasks, IdSet(doomed), now);
    FamilyIsClosed(s.tasks, id);
    DeletedRowsKeepTree(s.tasks, IdSet(doomed), now);
    DeletedRowsKeepLinks(s.tasks, s.links, doomed, now);
    LinksWithoutAreFewer(s.links, doomed);
    SettleCloses(s, WithdrawAll(Begin(s), doomed).value.(tasks := after));
  }

  /** Deleting is refused for a task that is not there, or that has open
      subtasks. Otherwise exactly the task and its finished subtasks are marked,
      exactly the links touching them go, and the account is in order. */
  lemma DeleteOutcome(s: State, setup: Setup, id: Id, now: int)
    requires Inv(s, setup)
    ensures var r := Delete(s, id, now);
      if !Live(s.tasks, id) then r == Err(TaskNotFound)
      else if HasOpenSubtask(s.tasks, id) then r == Err(HasActiveSubtasks)
      else
        && r.Ok? && Inv(r.value, setup)
        && r.value.tasks == DeletedRows(s.tasks, Family(s.tasks, id), now)
        && r.value.links == LinksOutside(s.links, Family(s.tasks, id))
        && r.value.held == s.held
  {
    if Live(s.tasks, id) {
      DoomedIsTheFamily(s, id);
      if !HasOpenSubtask(s.tasks, id) {
        DeleteSucceeds(s, setup, id, now, Doomed(s, id).value);
      }
    }
  }
}
