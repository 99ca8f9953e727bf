/** back/internal/domain/task/task.go: the Task row and what its own methods do to it. */
module Tasks {
  import opened Types

  datatype Status = Active | Completed
  datatype Via = Direct | ParentCascade

  /** A row of the tasks table. Both a regular task and a subtask; `parent` tells them apart. */
  datatype Task = Task(
    parent: Option<Id>,
    quadrant: Option<Quadrant>,
    position: int,
    deadline: Option<int>,
    deadlineHasTime: bool,
    status: Status,
    completedAt: Option<int>,
    xpAwarded: Option<int>,
    quadrantAtCompletion: Option<Quadrant>,
    completedVia: Option<Via>,
    deletedAt: Option<int>
  ) {
    predicate IsSubtask() {
      parent.Some?
    }

    predicate IsCompleted() {
      status == Completed
    }
  }

  function NewRegular(quadrant: Quadrant, position: int): Task {
    Task(None, Some(quadrant), position, None, false, Active, None, None, None, None, None)
  }

  function NewSubtask(parentId: Id, parent: Task, position: int): Result<Task> {
    if parent.IsSubtask() then Err(NestingNotAllowed)
    else Ok(Task(Some(parentId), None, position, None, false, Active, None, None, None, None, None))
  }

  /** The quadrant that prices the task's XP; none for an orphan. */
  function EffectiveQuadrant(t: Task, parent: Option<Task>): Option<Quadrant> {
    if t.quadrant.Some? then t.quadrant
    else if parent.Some? && parent.value.quadrant.Some? then parent.value.quadrant
    else None
  }

  /** A completed row: active no more, with its four-part snapshot. */
  function Finished(t: Task, at: int, xp: int, quadrant: Quadrant, via: Via): Task {
    t.(status := Completed, completedAt := Some(at), xpAwarded := Some(xp),
       quadrantAtCompletion := Some(quadrant), completedVia := Some(via))
  }

  /** The same row returned to work, its snapshot gone. */
  function Unfinished(t: Task): Task {
    t.(status := Active, completedAt := None, xpAwarded := None, quadrantAtCompletion := None, completedVia := None)
  }

  function Promoted(t: Task, quadrant: Quadrant, position: int): Task {
    t.(parent := None, quadrant := Some(quadrant), position := position)
  }

  /** A subtask has no quadrant of its own and a task always has one. */
  predicate WellPlaced(id: Id, t: Task) {
    (t.parent.None? <==> t.quadrant.Some?) && t.parent != Some(id)
  }

  /** The CHECK tasks_completion_snapshot: all four parts, or none, with the status. */
  predicate SnapshotWhole(t: Task) {
    && (t.status == Completed <==> t.completedAt.Some?)
    && (t.completedAt.Some? <==> t.xpAwarded.Some?)
    && (t.completedAt.Some? <==> t.quadrantAtCompletion.Some?)
    && (t.completedAt.Some? <==> t.completedVia.Some?)
  }

  /** Task.Validate, the free-text fields apart. */
  predicate Validate(id: Id, t: Task) {
    id != NIL && WellPlaced(id, t) && (t.IsCompleted() <==> t.completedAt.Some?)
  }

  /** Completing and reopening are inverse on everything but the time of day. */
  lemma ReopenUndoesComplete(t: Task, at: int, xp: int, quadrant: Quadrant, via: Via)
    requires SnapshotWhole(t)
    ensures !t.IsCompleted() ==> Unfinished(Finished(t, at, xp, quadrant, via)) == t
    ensures SnapshotWhole(Finished(t, at, xp, quadrant, via)) && SnapshotWhole(Unfinished(t))
  {
  }

  /** The task a request holds in memory between reading its row and writing it back. */
  class Item {
    var parent: Option<Id>
    var quadrant: Option<Quadrant>
    var position: int
    var deadline: Option<int>
    var deadlineHasTime: bool
    var status: Status
    var completedAt: Option<int>
    var xpAwarded: Option<int>
    var quadrantAtCompletion: Option<Quadrant>
    var completedVia: Option<Via>
    var deletedAt: Option<int>

    function Row(): Task
      reads this
    {
      Task(parent, quadrant, position, deadline, deadlineHasTime, status,
           completedAt, xpAwarded, quadrantAtCompletion, completedVia, deletedAt)
    }

    constructor (row: Task)
      ensures Row() == row
    {
      parent, quadrant, position := row.parent, row.quadrant, row.position;
      deadline, deadlineHasTime := row.deadline, row.deadlineHasTime;
      status, completedAt, xpAwarded := row.status, row.completedAt, row.xpAwarded;
      quadrantAtCompletion, completedVia, deletedAt := row.quadrantAtCompletion, row.completedVia, row.deletedAt;
    }

    method Complete(at: int, xp: int, priced: Quadrant, via: Via) returns (r: Result<()>)
      modifies this
      ensures old(Row()).IsCompleted() ==> r == Err(TaskAlreadyDone) && Row() == old(Row())
      ensures !old(Row()).IsCompleted() ==> r == Ok(()) && Row() == Finished(old(Row()), at, xp, priced, via)
    {
      if status == Completed {
        return Err(TaskAlreadyDone);
      }
      status := Completed;
      completedAt := Some(at);
      xpAwarded := Some(xp);
      quadrantAtCompletion := Some(priced);
      completedVia := Some(via);
      return Ok(());
    }

    method Reopen() returns (r: Result<()>)
      modifies this
      ensures !old(Row()).IsCompleted() ==> r == Err(ValidationFailed) && Row() == old(Row())
      ensures old(Row()).IsCompleted() ==> r == Ok(()) && Row() == Unfinished(old(Row()))
    {
      if status != Completed {
        return Err(ValidationFailed);
      }
      status := Active;
      completedAt := None;
      xpAwarded := None;
      quadrantAtCompletion := None;
      completedVia := None;
      return Ok(());
    }

    method Promote(target: Quadrant, at: int) returns (r: Result<()>)
      modifies this
      ensures !old(Row()).IsSubtask() ==> r == Err(NotASubtask) && Row() == old(Row())
      ensures old(Row()).IsSubtask() ==> r == Ok(()) && Row() == Promoted(old(Row()), target, at)
    {
      if parent == None {
        return Err(NotASubtask);
      }
      parent := None;
      quadrant := Some(target);
      position := at;
      return Ok(());
    }
  }
}
