/** The use cases of back/internal/app: board/progress.go, board/move.go,
    board/write.go, achievement/service.go and graph/links.go, statement by
    statement over the store. Each use case commits what `Board` says of its
    request, or rolls back and answers its code. */
module BoardService {
  import opened Types
  import opened Position
  import opened Tasks
  import opened Scopes
  import opened Ledger
  import opened Progression
  import opened Board
  import opened BoardInvariants
  import opened BoardRuns
  import opened BoardOrder
  import opened Database

  datatype LevelChange = LevelChange(from: int, to: int)

  /** What a completing or reopening request reports. */
  datatype Progress = Progress(xpAwarded: int, levelUp: Option<LevelChange>, unlocked: seq<Id>)

  /** The change a transaction is adding up, and what it will report. */
  class Tally {
    var delta: Delta
    var awarded: int

    constructor ()
      ensures delta == NO_DELTA && awarded == 0
    {
      delta, awarded := NO_DELTA, 0;
    }

    method Credit(xp: int, isSubtask: bool)
      modifies this
      ensures delta == Paying(old(delta), xp, isSubtask, 1) && awarded == old(awarded) + xp
    {
      delta := delta.(xp := delta.xp + xp);
      if isSubtask {
        delta := delta.(subtasksCompleted := delta.subtasksCompleted + 1);
      } else {
        delta := delta.(tasksCompleted := delta.tasksCompleted + 1);
      }
      awarded := awarded + xp;
    }
  }

  ghost function Crossing(before: Stats, after: Stats): Option<LevelChange> {
    if after.level > before.level then Some(LevelChange(before.level, after.level)) else None
  }

  class Service {
    const db: Store
    const setup: Setup

    constructor (db: Store, setup: Setup)
      ensures this.db == db && this.setup == setup
    {
      this.db, this.setup := db, setup;
    }

    ghost function InFlight(tally: Tally): Work
      reads db, tally
    {
      Work(db.tasks, db.ledger, tally.delta)
    }

    // ---------- progress.go ----------

    method EffectiveQuadrantOf(item: Item) returns (r: Result<Quadrant>)
      ensures r == ResolveQuadrant(db.tasks, item.Row())
    {
      var parent: Option<Task> := None;
      if item.parent.Some? {
        var found := db.ByID(item.parent.value);
        if found.Err? {
          return Err(OrphanedNode);
        }
        parent := Some(found.value.Row());
      }
      var quadrant := Tasks.EffectiveQuadrant(item.Row(), parent);
      if quadrant.None? {
        return Err(OrphanedNode);
      }
      return Ok(quadrant.value);
    }

    /** The next number of its task and source goes to the entry. */
    method RecordGrant(id: Id, xp: int, isSubtask: bool, quadrant: Quadrant) returns (r: Result<()>)
      modifies db
      ensures var seen := Count(old(db.ledger), id, GrantSource(isSubtask));
              match Grant(id, xp, isSubtask, quadrant, CONFIG_VERSION, seen + 1)
              case Err(code) => r == Err(code) && db.Contents() == old(db.Contents())
              case Ok(entry) =>
                match Record(old(db.ledger), entry)
                case Ok(l) => r == Ok(()) && db.Contents() == old(db.Contents()).(ledger := l)
                case Err(code) => r == Err(code) && db.Contents() == old(db.Contents())
    {
      var source := TaskCompleted;
      if isSubtask {
        source := SubtaskCompleted;
      }
      var granted := db.GrantCount(id, source);
      var entry :- Grant(id, xp, isSubtask, quadrant, CONFIG_VERSION, granted + 1);
      r := db.RecordEntry(entry);
    }

    /** Completes one task, writes its entry and counts it. */
    method Award(id: Id, item: Item, quadrant: Quadrant, via: Via, now: int, tally: Tally) returns (r: Result<()>)
      requires id in db.tasks && item.Row() == db.tasks[id]
      modifies db, item, tally
      ensures item.parent == old(item.parent)
      ensures match Board.Award(old(InFlight(tally)), id, quadrant, via, now)
              case Ok(w) =>
                && r == Ok(()) && InFlight(tally) == w
                && db.Contents() == old(db.Contents()).(tasks := w.tasks, ledger := w.ledger)
                && tally.awarded - w.delta.xp == old(tally.awarded - tally.delta.xp)
              case Err(code) => r == Err(code)
    {
      var xp := Reward(quadrant, item.parent.Some?);
      var _ :- item.Complete(now, xp, quadrant, via);
      var _ :- db.Update(id, item);

      var _ :- RecordGrant(id, xp, item.parent.Some?, quadrant);

      tally.Credit(xp, item.parent.Some?);
      return Ok(());
    }

    /** Completes the subtasks read before the loop, skipping those already done. */
    method AwardSubtasks(slots: seq<Slot>, rows: seq<Task>, quadrant: Quadrant, now: int, tally: Tally) returns (r: Result<()>)
      requires |slots| == |rows|
      requires forall i, j :: 0 <= i < j < |slots| ==> slots[i].id != slots[j].id
      requires forall i :: 0 <= i < |slots| ==> slots[i].id in db.tasks && rows[i] == db.tasks[slots[i].id]
      modifies db, tally
      ensures match Cascade(old(InFlight(tally)), SlotIds(slots), quadrant, now)
              case Ok(w) =>
                && r == Ok(()) && InFlight(tally) == w
                && db.Contents() == old(db.Contents()).(tasks := w.tasks, ledger := w.ledger)
                && tally.awarded - w.delta.xp == old(tally.awarded - tally.delta.xp)
              case Err(code) => r == Err(code)
    {
      ghost var whole, ids := Cascade(InFlight(tally), SlotIds(slots), quadrant, now), SlotIds(slots);
      assert ids[0..] == ids;
      for i := 0 to |slots|
        invariant db.Contents() == old(db.Contents()).(tasks := db.tasks, ledger := db.ledger)
        invariant tally.awarded - tally.delta.xp == old(tally.awarded - tally.delta.xp)
        invariant whole == Cascade(InFlight(tally), ids[i..], quadrant, now)
        invariant forall j :: i <= j < |slots| ==> ids[j] in db.tasks && rows[j] == db.tasks[ids[j]]
      {
        assert ids[i..][0] == ids[i] && ids[i..][1..] == ids[i + 1..];
        assert slots[i].id == ids[i];
        if rows[i].status == Completed {
          continue;
        }
        ghost var tasks := db.tasks;
        var child := new Item(rows[i]);
        var awarded := Award(slots[i].id, child, quadrant, ParentCascade, now, tally);
        if awarded.Err? {
          return awarded;
        }
        assert db.tasks == tasks[ids[i] := db.tasks[ids[i]]];
      }
      return Ok(());
    }

    method ApplyProgress(delta: Delta) returns (levelUp: Option<LevelChange>)
      modifies db
      ensures db.Contents() == old(db.Contents()).(stats := Board.ApplyProgress(old(db.stats), delta))
      ensures levelUp == Crossing(old(db.stats), db.stats)
    {
      if delta.Empty() {
        return None;
      }
      var stats := db.Apply(delta);
      var level := LevelForXP(stats.lifetimeXP);
      if level == stats.level {
        return None;
      }
      db.SetLevel(level);
      if level <= stats.level {
        return None;
      }
      return Some(LevelChange(stats.level, level));
    }

    /** The task itself, and then whatever it drags along. */
    method Completing(id: Id, now: int, tally: Tally) returns (r: Result<()>)
      requires tally.delta == NO_DELTA && tally.awarded == 0
      modifies db, tally
      ensures match CompleteWork(old(db.Contents()), id, now)
              case Ok(w) =>
                && r == Ok(()) && InFlight(tally) == w && tally.awarded == w.delta.xp
                && db.Contents() == old(db.Contents()).(tasks := w.tasks, ledger := w.ledger)
              case Err(code) => r == Err(code)
    {
      var item :- db.ByID(id);
      if item.status == Completed {
        return Err(TaskAlreadyDone);
      }
      var quadrant :- EffectiveQuadrantOf(item);
      var _ :- Award(id, item, quadrant, Direct, now, tally);
      if item.parent.None? {
        var slots, rows := db.Subtasks(id);
        ListedOnce(db.tasks, UnderParent(id));
        var _ :- AwardSubtasks(slots, rows, quadrant, now, tally);
      }
      return Ok(());
    }

    method Complete(id: Id, now: int) returns (r: Result<Progress>)
      modifies db
      ensures match Board.Complete(old(db.Contents()), setup, id, now)
              case Ok(s) =>
                && r.Ok? && db.Contents() == s
                && r.value.xpAwarded == s.stats.lifetimeXP - old(db.stats.lifetimeXP)
                && r.value.levelUp == Crossing(old(db.stats), s.stats)
                && s.held == old(db.held) + (set k | k in r.value.unlocked)
              case Err(code) => r == Err(code) && db.Contents() == old(db.Contents())
    {
      var saved := db.Contents();
      var tally := new Tally();
      var done := Completing(id, now, tally);
      if done.Err? {
        db.Restore(saved);
        return Err(done.code);
      }
      var levelUp := ApplyProgress(tally.delta);
      var unlocked := Evaluate();
      return Ok(Progress(tally.awarded, levelUp, unlocked));
    }

    /** Puts the row back to work and withdraws what it was granted. */
    method Reopening(id: Id, tally: Tally) returns (r: Result<()>)
      requires tally.delta == NO_DELTA && tally.awarded == 0
      modifies db, tally
      ensures match ReopenWork(old(db.Contents()), id)
              case Ok(w) =>
                && r == Ok(()) && InFlight(tally) == w && tally.awarded == w.delta.xp
                && db.Contents() == old(db.Contents()).(tasks := w.tasks, ledger := w.ledger)
              case Err(code) => r == Err(code)
    {
      var item :- db.ByID(id);
      if item.status != Completed {
        return Err(ValidationFailed);
      }
      var granted := item.xpAwarded.GetOr(0);
      var wasSubtask := item.parent.Some?;
      var _ := item.Reopen();
      var _ :- db.Update(id, item);

      tally.delta := tally.delta.(xp := -granted);
      if wasSubtask {
        tally.delta := tally.delta.(subtasksCompleted := -1);
      } else {
        tally.delta := tally.delta.(tasksCompleted := -1);
      }
      tally.awarded := -granted;
      r := RecordRevocation(id, granted, TaskReopened);
    }

    /** A zero is not a fact worth recording. */
    method RecordRevocation(id: Id, granted: int, source: Source) returns (r: Result<()>)
      modifies db
      ensures match RevokeGranted(old(db.ledger), id, granted, source)
              case Ok(l) => r == Ok(()) && db.Contents() == old(db.Contents()).(ledger := l)
              case Err(code) => r == Err(code) && db.Contents() == old(db.Contents())
    {
      if granted <= 0 {
        return Ok(());
      }
      var entry :- Revoke(id, granted, source);
      r := db.RecordEntry(entry);
    }

    method Reopen(id: Id) returns (r: Result<Progress>)
      modifies db
      ensures match Board.Reopen(old(db.Contents()), id)
              case Ok(s) =>
                && r.Ok? && db.Contents() == s
                && r.value.xpAwarded == s.stats.lifetimeXP - old(db.stats.lifetimeXP)
                && r.value.levelUp == Crossing(old(db.stats), s.stats)
              case Err(code) => r == Err(code) && db.Contents() == old(db.Contents())
    {
      var saved := db.Contents();
      var tally := new Tally();
      var done := Reopening(id, tally);
      if done.Err? {
        db.Restore(saved);
        return Err(done.code);
      }
      var levelUp := ApplyProgress(tally.delta);
      return Ok(Progress(tally.awarded, levelUp, []));
    }

    // ---------- move.go: Delete ----------

    method Withdraw(id: Id, row: Task, tally: Tally) returns (r: Result<()>)
      requires id in db.tasks && row == db.tasks[id]
      modifies db, tally
      ensures match Board.Withdraw(old(InFlight(tally)), id)
              case Ok(w) =>
                && r == Ok(()) && InFlight(tally) == w
                && db.Contents() == old(db.Contents()).(tasks := w.tasks, ledger := w.ledger)
              case Err(code) => r == Err(code)
    {
      if row.status != Completed {
        return Ok(());
      }
      if row.parent.Some? {
        tally.delta := tally.delta.(subtasksCompleted := tally.delta.subtasksCompleted - 1);
      } else {
        tally.delta := tally.delta.(tasksCompleted := tally.delta.tasksCompleted - 1);
      }
      if row.xpAwarded == None || row.xpAwarded.value <= 0 {
        return Ok(());
      }
      tally.delta := tally.delta.(xp := tally.delta.xp - row.xpAwarded.value);
      r := RecordRevocation(id, row.xpAwarded.value, TaskDeleted);
    }

    method WithdrawEach(doomed: seq<Id>, rows: seq<Task>, tally: Tally) returns (r: Result<()>)
      requires |doomed| == |rows| && forall i :: 0 <= i < |doomed| ==> doomed[i] in db.tasks && rows[i] == db.tasks[doomed[i]]
      modifies db, tally
      ensures match WithdrawAll(old(InFlight(tally)), doomed)
              case Ok(w) =>
                && r == Ok(()) && InFlight(tally) == w
                && db.Contents() == old(db.Contents()).(tasks := w.tasks, ledger := w.ledger)
              case Err(code) => r == Err(code)
    {
      ghost var whole := WithdrawAll(InFlight(tally), doomed);
      assert doomed[0..] == doomed;
      for i := 0 to |doomed|
        invariant db.Contents() == old(db.Contents()).(ledger := db.ledger)
        invariant whole == WithdrawAll(InFlight(tally), doomed[i..])
      {
        assert doomed[i..][0] == doomed[i] && doomed[i..][1..] == doomed[i + 1..];
        var withdrawn := Withdraw(doomed[i], rows[i], tally);
        if withdrawn.Err? {
          return withdrawn;
        }
      }
      return Ok(());
    }

    /** Which rows go, and the rows themselves. */
    method Collect(id: Id) returns (r: Result<(seq<Id>, seq<Task>)>)
      ensures match Doomed(db.Contents(), id)
              case Ok(doomed) =>
                && r.Ok? && r.value.0 == doomed && |r.value.1| == |doomed|
                && (forall i :: 0 <= i < |doomed| ==> doomed[i] in db.tasks && r.value.1[i] == db.tasks[doomed[i]])
              case Err(code) => r == Err(code)
    {
      var item :- db.ByID(id);
      var doomed, rows := [id], [item.Row()];
      if item.parent.None? {
        var slots, subtasks := db.Subtasks(id);
        ghost var ids := SlotIds(slots);
        for i := 0 to |slots|
          invariant doomed == [id] + ids[..i] && rows == [db.tasks[id]] + subtasks[..i]
          invariant forall j :: 0 <= j < i ==> db.tasks[ids[j]].IsCompleted()
        {
          assert slots[i].id == ids[i];
          if subtasks[i].status != Completed {
            return Err(HasActiveSubtasks);
          }
          doomed, rows := doomed + [slots[i].id], rows + [subtasks[i]];
        }
        assert ids[..|slots|] == ids;
      }
      return Ok((doomed, rows));
    }

    method Deleting(id: Id, now: int) returns (r: Result<seq<Id>>)
      modifies db
      ensures match Board.Delete(old(db.Contents()), id, now)
              case Ok(s) => db.Contents() == s && r == Doomed(old(db.Contents()), id)
              case Err(code) => r == Err(code)
    {
      var found :- Collect(id);
      var doomed, rows := found.0, found.1;
      var tally := new Tally();
      var _ :- WithdrawEach(doomed, rows, tally);
      db.RemoveLinksOf(doomed);
      var _ :- db.MarkDeleted(doomed, now);
      var _ := ApplyProgress(tally.delta);
      return Ok(doomed);
    }

    method Delete(id: Id, now: int) returns (r: Result<seq<Id>>)
      modifies db
      ensures match Board.Delete(old(db.Contents()), id, now)
              case Ok(s) => db.Contents() == s && r == Doomed(old(db.Contents()), id)
              case Err(code) => r == Err(code) && db.Contents() == old(db.Contents())
    {
      var saved := db.Contents();
      r := Deleting(id, now);
      if r.Err? {
        db.Restore(saved);
      }
    }

    // ---------- move.go: MoveTask and Promote ----------

    /** Finds the place among the others of the scope and writes the renumbering, if there is one. */
    method FindPlace(slots: seq<Slot>, id: Id, before: Option<Id>, after: Option<Id>) returns (r: Result<int>)
      modifies db
      ensures match Placing(Removed(slots, id), before, after)
              case Ok(placed) =>
                && r == Ok(placed.position)
                && db.Contents() == old(db.Contents()).(tasks := Reposition(old(db.tasks), placed.placements))
              case Err(code) => r == Err(code)
    {
      var scope := new Slot[|slots|](i requires 0 <= i < |slots| => slots[i]);
      assert scope[..] == slots;
      var kept := Without(scope, id);
      var found := Place(scope[..kept], before, after);
      var placed :- found;
      if |placed.placements| > 0 {
        db.WriteBack(placed.placements);
      } else {
        NothingToWrite(db.tasks, placed.placements);
      }
      return Ok(placed.position);
    }

    method PlaceUnderParent(id: Id, item: Item, parent: Id, before: Option<Id>, after: Option<Id>) returns (r: Result<()>)
      requires id in db.tasks && item.Row() == db.tasks[id]
      modifies db, item
      ensures var row := old(db.tasks)[id];
              if !row.IsSubtask() then r == Err(NotASubtask)
              else if row.parent != Some(parent) then r == Err(ValidationFailed)
              else
                match PlaceRow(old(db.tasks), id, UnderParent(parent), before, after)
                case Ok(t) => r == Ok(()) && db.Contents() == old(db.Contents()).(tasks := t)
                case Err(code) => r == Err(code)
    {
      if item.parent.None? {
        return Err(NotASubtask);
      }
      if item.parent != Some(parent) {
        return Err(ValidationFailed);
      }
      var siblings, _ := db.Subtasks(parent);
      var position :- FindPlace(siblings, id, before, after);
      item.position := position;
      if !Validate(id, item.Row()) {
        return Err(ValidationFailed);
      }
      r := db.Update(id, item);
    }

    method PlaceInQuadrant(id: Id, item: Item, quadrant: Quadrant, before: Option<Id>, after: Option<Id>) returns (r: Result<()>)
      requires id in db.tasks && item.Row() == db.tasks[id]
      modifies db, item
      ensures match PlaceRow(old(db.tasks), id, InQuadrant(quadrant), before, after)
              case Ok(t) => r == Ok(()) && db.Contents() == old(db.Contents()).(tasks := t)
              case Err(code) => r == Err(code)
    {
      var scope := db.ScopeTasks(quadrant);
      var position :- FindPlace(scope, id, before, after);
      if item.parent.Some? {
        var _ := item.Promote(quadrant, position);
      } else {
        item.quadrant := Some(quadrant);
        item.position := position;
      }
      if !Validate(id, item.Row()) {
        return Err(ValidationFailed);
      }
      r := db.Update(id, item);
    }

    method Moving(id: Id, move: Move) returns (r: Result<()>)
      modifies db
      ensures match Board.MoveTask(old(db.Contents()), id, move)
              case Ok(s) => r == Ok(()) && db.Contents() == s
              case Err(code) => r == Err(code)
    {
      var item :- db.ByID(id);
      if item.status == Completed {
        return Err(CompletedTaskFrozen);
      }
      if move.parent.Some? && move.quadrant != Absent {
        return Err(ValidationFailed);
      }
      if move.parent.Some? {
        r := PlaceUnderParent(id, item, move.parent.value, move.before, move.after);
      } else if move.quadrant.Known? {
        r := PlaceInQuadrant(id, item, move.quadrant.quadrant, move.before, move.after);
      } else {
        return Err(ValidationFailed);
      }
    }

    method MoveTask(id: Id, move: Move) returns (r: Result<()>)
      modifies db
      ensures match Board.MoveTask(old(db.Contents()), id, move)
              case Ok(s) => r == Ok(()) && db.Contents() == s
              case Err(code) => r == Err(code) && db.Contents() == old(db.Contents())
    {
      var saved := db.Contents();
      r := Moving(id, move);
      if r.Err? {
        db.Restore(saved);
      }
    }

    method Promoting(id: Id, asked: QuadrantArg) returns (r: Result<()>)
      modifies db
      ensures match Board.Promote(old(db.Contents()), id, asked)
              case Ok(s) => r == Ok(()) && db.Contents() == s
              case Err(code) => r == Err(code)
    {
      var item :- db.ByID(id);
      if item.parent.None? {
        return Err(NotASubtask);
      }
      var target: Quadrant;
      if asked.Unknown? {
        return Err(ValidationFailed);
      } else if asked.Known? {
        target := asked.quadrant;
      } else {
        target :- EffectiveQuadrantOf(item);
      }
      r := PlaceInQuadrant(id, item, target, None, None);
    }

    method Promote(id: Id, asked: QuadrantArg) returns (r: Result<()>)
      modifies db
      ensures match Board.Promote(old(db.Contents()), id, asked)
              case Ok(s) => r == Ok(()) && db.Contents() == s
              case Err(code) => r == Err(code) && db.Contents() == old(db.Contents())
    {
      var saved := db.Contents();
      r := Promoting(id, asked);
      if r.Err? {
        db.Restore(saved);
      }
    }

    // ---------- write.go ----------

    method DraftToItem(draft: Draft) returns (r: Result<Item>)
      modifies db
      ensures match DraftToTask(old(db.tasks), draft)
              case Ok(made) =>
                && r.Ok? && fresh(r.value) && r.value.Row() == made.1
                && db.Contents() == old(db.Contents()).(tasks := made.0)
              case Err(code) => r == Err(code)
    {
      var item: Item;
      if draft.parent.Some? {
        var parent :- db.ByID(draft.parent.value);
        var siblings, _ := db.Subtasks(draft.parent.value);
        var found := Place(siblings, None, None);
        var placed := found.value;
        var row :- NewSubtask(draft.parent.value, parent.Row(), placed.position);
        item := new Item(row);
      } else {
        if !draft.quadrant.Known? {
          return Err(ValidationFailed);
        }
        var scope := db.ScopeTasks(draft.quadrant.quadrant);
        var found := Place(scope, None, None);
        var placed := found.value;
        if |placed.placements| > 0 {
          db.WriteBack(placed.placements);
        } else {
          NothingToWrite(db.tasks, placed.placements);
        }
        item := new Item(NewRegular(draft.quadrant.quadrant, placed.position));
      }
      item.deadline := draft.deadline;
      item.deadlineHasTime := draft.deadline.Some? && draft.deadlineHasTime;
      return Ok(item);
    }

    method Creating(id: Id, draft: Draft) returns (r: Result<Task>)
      modifies db
      ensures match Board.Create(old(db.Contents()), setup, id, draft)
              case Ok(s) => db.Contents() == s && id in s.tasks && r == Ok(s.tasks[id])
              case Err(code) => r == Err(code)
    {
      var limit := ActiveTaskLimit(setup.plan);
      if limit.Some? && CountActive(db.tasks) >= limit.value {
        return Err(QuotaLimitReached);
      }
      var item :- DraftToItem(draft);
      if !draft.wellFormed || !Validate(id, item.Row()) {
        return Err(ValidationFailed);
      }
      var _ :- db.Insert(id, item);
      var _ := ApplyProgress(NO_DELTA.(tasksCreated := 1));
      return Ok(item.Row());
    }

    method Create(id: Id, draft: Draft) returns (r: Result<Task>)
      modifies db
      ensures match Board.Create(old(db.Contents()), setup, id, draft)
              case Ok(s) => db.Contents() == s && id in s.tasks && r == Ok(s.tasks[id])
              case Err(code) => r == Err(code) && db.Contents() == old(db.Contents())
    {
      var saved := db.Contents();
      r := Creating(id, draft);
      if r.Err? {
        db.Restore(saved);
      }
    }

    method Update(id: Id, patch: Patch) returns (r: Result<Task>)
      modifies db
      ensures match Board.Update(old(db.Contents()), id, patch)
              case Ok(s) => db.Contents() == s && id in s.tasks && r == Ok(s.tasks[id])
              case Err(code) => r == Err(code) && db.Contents() == old(db.Contents())
    {
      var item :- db.ByID(id);
      if item.status == Completed {
        return Err(CompletedTaskFrozen);
      }
      if patch.clearDeadline {
        item.deadline := None;
        item.deadlineHasTime := false;
      } else if patch.deadline.Some? {
        item.deadline := patch.deadline;
        if patch.deadlineHasTime.Some? {
          item.deadlineHasTime := patch.deadlineHasTime.value;
        }
      } else if patch.deadlineHasTime.Some? {
        item.deadlineHasTime := item.deadline.Some? && patch.deadlineHasTime.value;
      }
      if !patch.wellFormed || !Validate(id, item.Row()) {
        return Err(ValidationFailed);
      }
      var _ :- db.Update(id, item);
      return Ok(item.Row());
    }

    // ---------- graph/links.go ----------

    method LinksWithinQuota() returns (r: Result<()>)
      ensures var limit := TaskLinkLimit(setup.plan);
              r == if limit.Some? && |db.links| >= limit.value then Err(QuotaLimitReached) else Ok(())
    {
      var limit := TaskLinkLimit(setup.plan);
      if limit.None? {
        return Ok(());
      }
      if |db.links| >= limit.value {
        return Err(QuotaLimitReached);
      }
      return Ok(());
    }

    method LinkTasks(id: Id, source: Id, target: Id, kind: KindArg) returns (r: Result<Link>)
      modifies db
      ensures match Board.CreateLink(old(db.Contents()), setup, id, source, target, kind)
              case Ok(s) => db.Contents() == s && id in s.links && r == Ok(s.links[id])
              case Err(code) => r == Err(code) && db.Contents() == old(db.Contents())
    {
      if kind.BadKind? {
        return Err(ValidationFailed);
      }
      if id == NIL || source == NIL || target == NIL {
        return Err(ValidationFailed);
      }
      if source == target {
        return Err(SelfLink);
      }
      var made := Link(source, target, SentKind(kind));
      var from :- db.ByID(source);
      var to :- db.ByID(target);
      if to.parent == Some(source) || from.parent == Some(target) {
        return Err(DuplicateLink);
      }
      var _ :- LinksWithinQuota();
      var _ :- db.InsertLink(id, made);
      var _ := db.Apply(NO_DELTA.(linksCreated := 1));
      var _ := Evaluate();
      return Ok(made);
    }

    method Retype(id: Id, kind: KindArg) returns (r: Result<Link>)
      modifies db
      ensures match RetypeLink(old(db.Contents()), id, kind)
              case Ok(s) => db.Contents() == s && id in s.links && r == Ok(s.links[id])
              case Err(code) => r == Err(code) && db.Contents() == old(db.Contents())
    {
      if id !in db.links {
        return Err(TaskNotFound);
      }
      if !kind.KindOf? {
        return Err(ValidationFailed);
      }
      var retyped := db.links[id].(kind := kind.kind);
      var _ :- db.UpdateLink(id, retyped);
      return Ok(retyped);
    }

    method Unlink(id: Id) returns (r: Result<()>)
      modifies db
      ensures match Board.DeleteLink(old(db.Contents()), id)
              case Ok(s) => r == Ok(()) && db.Contents() == s
              case Err(code) => r == Err(code) && db.Contents() == old(db.Contents())
    {
      r := db.RemoveLink(id);
    }

    // ---------- achievement/service.go ----------

    method Evaluate() returns (unlocked: seq<Id>)
      modifies db
      ensures db.Contents() == Board.Evaluate(old(db.Contents()), setup)
      ensures unlocked == Unlocks(ReadMetrics(old(db.Contents())), setup.catalogue, old(db.held))
    {
      var metrics, held := ReadMetrics(db.Contents()), db.held;
      unlocked := [];
      assert setup.catalogue[0..] == setup.catalogue;
      for i := 0 to |setup.catalogue|
        invariant db.Contents() == old(db.Contents()).(held := held + (set k | k in unlocked))
        invariant unlocked + Unlocks(metrics, setup.catalogue[i..], db.held) == Unlocks(metrics, setup.catalogue, held)
      {
        var entry := setup.catalogue[i];
        assert setup.catalogue[i..][0] == entry && setup.catalogue[i..][1..] == setup.catalogue[i + 1..];
        if entry.id in held || !Earned(metrics, entry) {
          continue;
        }
        var first := db.Unlock(entry.id);
        if !first {
          continue;
        }
        unlocked := unlocked + [entry.id];
      }
      if |unlocked| > 0 {
        var _ := db.Apply(NO_DELTA.(achievementsUnlocked := |unlocked|));
      }
    }

    // ---------- requests ----------

    /** One request, as the router hands it to its use case. */
    method Handle(request: Request)
      modifies db
      ensures db.Contents() == Next(old(db.Contents()), setup, request)
    {
      match request {
        case DoCreate(id, draft) => var _ := Create(id, draft);
        case DoUpdate(id, patch) => var _ := Update(id, patch);
        case DoComplete(id, now) => var _ := Complete(id, now);
        case DoReopen(id) => var _ := Reopen(id);
        case DoDelete(id, now) => var _ := Delete(id, now);
        case DoMove(id, move) => var _ := MoveTask(id, move);
        case DoPromote(id, asked) => var _ := Promote(id, asked);
        case DoLink(id, source, target, kind) => var _ := LinkTasks(id, source, target, kind);
        case DoRetype(id, kind) => var _ := Retype(id, kind);
        case DoUnlink(id) => var _ := Unlink(id);
      }
    }

    /** An account served from its beginning: what is proved of runs holds of the store. */
    method HandleAll(requests: seq<Request>)
      requires db.Contents() == NEW_ACCOUNT
      modifies db
      ensures db.Contents() == Run(NEW_ACCOUNT, setup, requests)
      ensures Inv(db.Contents(), setup)
    {
      for i := 0 to |requests|
        invariant db.Contents() == Run(NEW_ACCOUNT, setup, requests[..i])
      {
        Handle(requests[i]);
        assert requests[..i + 1][..i] == requests[..i];
      }
      assert requests[..|requests|] == requests;
      EveryRunKeepsInv(setup, requests);
    }
  }

  lemma ListedOnce(tasks: Rows, scope: Scope)
    ensures var l := Listing(tasks, scope); forall i, j :: 0 <= i < j < |l| ==> l[i].id != l[j].id
  {
    ListingSlots(tasks, scope);
    OrderedDistinct(Listing(tasks, scope), tasks, scope);
  }

  lemma NothingToWrite(tasks: Rows, placements: seq<Slot>)
    requires |placements| == 0
    ensures Reposition(tasks, placements) == tasks
  {
  }
}
