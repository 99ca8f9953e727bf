/** What every board and link request does to one account's rows, as functions
    of the rows. Each request is one transaction: it answers with the new state,
    or with a code and no change. */
module Board {
  import opened Types
  import opened Position
  import opened Tasks
  import opened Scopes
  import opened Ledger
  import opened Progression

  datatype Stats = Stats(
    lifetimeXP: int,
    level: int,
    tasksCreated: int,
    tasksCompleted: int,
    subtasksCompleted: int,
    linksCreated: int,
    achievementsUnlocked: int,
    longestStreak: int,
    graphOpenedDays: int
  )

  /** A change to the aggregate; every field is a difference. */
  datatype Delta = Delta(
    xp: int, tasksCreated: int, tasksCompleted: int, subtasksCompleted: int, linksCreated: int, achievementsUnlocked: int
  ) {
    predicate Empty() {
      this == NO_DELTA
    }
  }

  const NO_DELTA := Delta(0, 0, 0, 0, 0, 0)

  datatype LinkType = Related | ConnectedTo | Blocks | DependsOn
  datatype Link = Link(source: Id, target: Id, kind: LinkType)

  /** A link type as a request spells it: not at all, one of the four, or something else. */
  datatype KindArg = NoKind | KindOf(kind: LinkType) | BadKind

  datatype Metric = TasksCompleted | Q1TasksCompleted | LifetimeXP | Level | LongestStreak | LinksCreated | GraphOpenedDays
  /** A catalogue row; a metric this release does not know reads as None. */
  datatype Achievement = Achievement(id: Id, metric: Option<Metric>, threshold: int)

  /** What does not change while requests are served. */
  datatype Setup = Setup(plan: Plan, catalogue: seq<Achievement>)

  /** One account's rows. */
  datatype State = State(tasks: Rows, ledger: seq<Entry>, stats: Stats, held: set<Id>, links: map<Id, Link>)

  const CONFIG_VERSION := 1
  const FREE_ACTIVE_TASKS := 5
  const FREE_TASK_LINKS := 5

  // ---------- repositories ----------

  /** The table's CHECKs, foreign key and one-level trigger, for a row about to be written. */
  predicate Storable(tasks: Rows, id: Id, t: Task) {
    && WellPlaced(id, t)
    && SnapshotWhole(t)
    && (t.parent.Some? ==>
          && t.parent.value in tasks
          && tasks[t.parent.value].parent.None?
          && !exists child :: child in tasks && tasks[child].parent == Some(id))
  }

  function UpdateRow(tasks: Rows, id: Id, t: Task): Result<Rows> {
    if !Live(tasks, id) then Err(TaskNotFound)
    else if !Storable(tasks, id, t) then Err(ValidationFailed)
    else Ok(tasks[id := t])
  }

  function InsertRow(tasks: Rows, id: Id, t: Task): Result<Rows> {
    if id in tasks || !Storable(tasks, id, t) then Err(ValidationFailed)
    else Ok(tasks[id := t])
  }

  /** Writes a renumbered scope back in one statement. */
  function Reposition(tasks: Rows, placements: seq<Slot>): Rows {
    map id | id in tasks ::
      var k := IndexFrom(placements, id, 0);
      if k >= 0 && tasks[id].deletedAt.None? then tasks[id].(position := placements[k].position) else tasks[id]
  }

  /** Fails unless every named row was there to be marked, each once. */
  function SoftDelete(tasks: Rows, ids: seq<Id>, at: int): Result<Rows> {
    var affected := set id | id in ids && Live(tasks, id);
    if |affected| != |ids| then Err(TaskNotFound)
    else Ok(map id | id in tasks :: if id in affected then tasks[id].(deletedAt := Some(at)) else tasks[id])
  }

  function ApplyStats(stats: Stats, delta: Delta): Stats {
    stats.(lifetimeXP := stats.lifetimeXP + delta.xp,
           tasksCreated := stats.tasksCreated + delta.tasksCreated,
           tasksCompleted := stats.tasksCompleted + delta.tasksCompleted,
           subtasksCompleted := stats.subtasksCompleted + delta.subtasksCompleted,
           linksCreated := stats.linksCreated + delta.linksCreated,
           achievementsUnlocked := stats.achievementsUnlocked + delta.achievementsUnlocked)
  }

  function CountActive(tasks: Rows): nat {
    |set id | id in tasks && tasks[id].deletedAt.None? && tasks[id].status == Active|
  }

  function LiveCompleted(tasks: Rows): set<Id> {
    set id | id in tasks && tasks[id].deletedAt.None? && tasks[id].status == Completed
  }

  function SlotIds(slots: seq<Slot>): (ids: seq<Id>)
    ensures |ids| == |slots|
  {
    seq(|slots|, i requires 0 <= i < |slots| => slots[i].id)
  }

  // ---------- progress.go ----------

  /** Moves the aggregate, and the level with it; an empty change touches nothing. */
  function ApplyProgress(stats: Stats, delta: Delta): Stats {
    if delta.Empty() then stats
    else
      var moved := ApplyStats(stats, delta);
      moved.(level := LevelForXP(moved.lifetimeXP))
  }

  function ResolveQuadrant(tasks: Rows, item: Task): Result<Quadrant> {
    if item.IsSubtask() && !Live(tasks, item.parent.value) then Err(OrphanedNode)
    else
      var parent := if item.IsSubtask() then Some(tasks[item.parent.value]) else None;
      var quadrant := EffectiveQuadrant(item, parent);
      if quadrant.None? then Err(OrphanedNode) else Ok(quadrant.value)
  }

  /** The part of a transaction in flight: rows written, and the change not yet in the aggregate. */
  datatype Work = Work(tasks: Rows, ledger: seq<Entry>, delta: Delta)

  function Paying(delta: Delta, xp: int, isSubtask: bool, done: int): Delta {
    var d := delta.(xp := delta.xp + xp);
    if isSubtask then d.(subtasksCompleted := d.subtasksCompleted + done)
    else d.(tasksCompleted := d.tasksCompleted + done)
  }

  /** Completes one task and writes its ledger entry. */
  function Award(w: Work, id: Id, quadrant: Quadrant, via: Via, now: int): Result<Work> {
    if id !in w.tasks then Err(TaskNotFound)
    else
      var item := w.tasks[id];
      if item.IsCompleted() then Err(TaskAlreadyDone)
      else
        var xp := Reward(quadrant, item.IsSubtask());
        var tasks :- UpdateRow(w.tasks, id, Finished(item, now, xp, quadrant, via));
        var seen := Count(w.ledger, id, GrantSource(item.IsSubtask()));
        var entry :- Grant(id, xp, item.IsSubtask(), quadrant, CONFIG_VERSION, seen + 1);
        var ledger :- Record(w.ledger, entry);
        Ok(Work(tasks, ledger, Paying(w.delta, xp, item.IsSubtask(), 1)))
  }

  /** The cascade: the subtasks still open are completed along with the parent. */
  function Cascade(w: Work, children: seq<Id>, quadrant: Quadrant, now: int): Result<Work>
    decreases |children|
  {
    if |children| == 0 then Ok(w)
    else if children[0] in w.tasks && w.tasks[children[0]].IsCompleted() then Cascade(w, children[1..], quadrant, now)
    else
      var next :- Award(w, children[0], quadrant, ParentCascade, now);
      Cascade(next, children[1..], quadrant, now)
  }

  function Begin(s: State): Work {
    Work(s.tasks, s.ledger, NO_DELTA)
  }

  function Settle(s: State, w: Work): State {
    s.(tasks := w.tasks, ledger := w.ledger, stats := ApplyProgress(s.stats, w.delta))
  }

  ghost function CompleteWork(s: State, id: Id, now: int): Result<Work> {
    if !Live(s.tasks, id) then Err(TaskNotFound)
    else
      var item := s.tasks[id];
      if item.IsCompleted() then Err(TaskAlreadyDone)
      else
        var quadrant :- ResolveQuadrant(s.tasks, item);
        var w :- Award(Begin(s), id, quadrant, Direct, now);
        if item.IsSubtask() then Ok(w)
        else Cascade(w, SlotIds(Listing(w.tasks, UnderParent(id))), quadrant, now)
  }

  ghost function Complete(s: State, setup: Setup, id: Id, now: int): Result<State> {
    var w :- CompleteWork(s, id, now);
    Ok(Evaluate(Settle(s, w), setup))
  }

  function ReopenWork(s: State, id: Id): Result<Work> {
    if !Live(s.tasks, id) then Err(TaskNotFound)
    else
      var item := s.tasks[id];
      if !item.IsCompleted() then Err(ValidationFailed)
      else
        var granted := if item.xpAwarded.Some? then item.xpAwarded.value else 0;
        var tasks :- UpdateRow(s.tasks, id, Unfinished(item));
        var ledger :- RevokeGranted(s.ledger, id, granted, TaskReopened);
        Ok(Work(tasks, ledger, Paying(NO_DELTA, -granted, item.IsSubtask(), -1)))
  }

  function Reopen(s: State, id: Id): Result<State> {
    var w :- ReopenWork(s, id);
    Ok(Settle(s, w))
  }

  /** Takes back what was granted; nothing is recorded when nothing was. */
  function RevokeGranted(ledger: seq<Entry>, id: Id, granted: int, source: Source): Result<seq<Entry>> {
    if granted <= 0 then Ok(ledger)
    else
      var entry :- Revoke(id, granted, source);
      Record(ledger, entry)
  }

  // ---------- move.go ----------

  /** Takes back what a deleted task counted for. */
  function Withdraw(w: Work, id: Id): Result<Work> {
    if id !in w.tasks then Err(TaskNotFound)
    else
      var item := w.tasks[id];
      if !item.IsCompleted() then Ok(w)
      else
        var granted := if item.xpAwarded.Some? && item.xpAwarded.value > 0 then item.xpAwarded.value else 0;
        var ledger :- RevokeGranted(w.ledger, id, granted, TaskDeleted);
        Ok(Work(w.tasks, ledger, Paying(w.delta, -granted, item.IsSubtask(), -1)))
  }

  function WithdrawAll(w: Work, doomed: seq<Id>): Result<Work>
    decreases |doomed|
  {
    if |doomed| == 0 then Ok(w)
    else
      var next :- Withdraw(w, doomed[0]);
      WithdrawAll(next, doomed[1..])
  }

  /** A task goes alone; a parent goes with its subtasks, once none of them is open. */
  ghost function Doomed(s: State, id: Id): Result<seq<Id>> {
    if !Live(s.tasks, id) then Err(TaskNotFound)
    else if s.tasks[id].IsSubtask() then Ok([id])
    else
      var children := SlotIds(Listing(s.tasks, UnderParent(id)));
      if exists i :: 0 <= i < |children| && children[i] in s.tasks && !s.tasks[children[i]].IsCompleted()
      then Err(HasActiveSubtasks)
      else Ok([id] + children)
  }

  function LinksWithout(links: map<Id, Link>, gone: seq<Id>): map<Id, Link> {
    map k | k in links && links[k].source !in gone && links[k].target !in gone :: links[k]
  }

  ghost function Delete(s: State, id: Id, now: int): Result<State> {
    var doomed :- Doomed(s, id);
    var w :- WithdrawAll(Begin(s), doomed);
    var tasks :- SoftDelete(w.tasks, doomed, now);
    Ok(Settle(s, w.(tasks := tasks)).(links := LinksWithout(s.links, doomed)))
  }

  /** A quadrant as a request spells it: one of the four, something else, or not at all. */
  datatype QuadrantArg = Absent | Known(quadrant: Quadrant) | Unknown

  datatype Move = Move(quadrant: QuadrantArg, parent: Option<Id>, before: Option<Id>, after: Option<Id>)

  /** Writes the task at the place its new scope gives it, the renumbered siblings first. */
  ghost function PlaceRow(tasks: Rows, id: Id, scope: Scope, before: Option<Id>, after: Option<Id>): Result<Rows>
    requires id in tasks
  {
    var placed :- Placing(Removed(Listing(tasks, scope), id), before, after);
    var item := tasks[id];
    var moved := match scope
      case InQuadrant(q) =>
        if item.IsSubtask() then Promoted(item, q, placed.position)
        else item.(quadrant := Some(q), position := placed.position)
      case UnderParent(_) => item.(position := placed.position);
    if !Validate(id, moved) then Err(ValidationFailed)
    else UpdateRow(Reposition(tasks, placed.placements), id, moved)
  }

  function Destination(item: Task, move: Move): Result<Scope> {
    if move.parent.Some? && move.quadrant != Absent then Err(ValidationFailed)
    else if move.parent.Some? then
      if !item.IsSubtask() then Err(NotASubtask)
      else if item.parent != move.parent then Err(ValidationFailed)
      else Ok(UnderParent(move.parent.value))
    else if move.quadrant.Known? then Ok(InQuadrant(move.quadrant.quadrant))
    else Err(ValidationFailed)
  }

  ghost function MoveTask(s: State, id: Id, move: Move): Result<State> {
    if !Live(s.tasks, id) then Err(TaskNotFound)
    else if s.tasks[id].IsCompleted() then Err(CompletedTaskFrozen)
    else
      var scope :- Destination(s.tasks[id], move);
      var tasks :- PlaceRow(s.tasks, id, scope, move.before, move.after);
      Ok(s.(tasks := tasks))
  }

  function PromotionQuadrant(tasks: Rows, item: Task, asked: QuadrantArg): Result<Quadrant> {
    match asked
    case Known(q) => Ok(q)
    case Unknown => Err(ValidationFailed)
    case Absent => ResolveQuadrant(tasks, item)
  }

  ghost function Promote(s: State, id: Id, asked: QuadrantArg): Result<State> {
    if !Live(s.tasks, id) then Err(TaskNotFound)
    else if !s.tasks[id].IsSubtask() then Err(NotASubtask)
    else
      var quadrant :- PromotionQuadrant(s.tasks, s.tasks[id], asked);
      var tasks :- PlaceRow(s.tasks, id, InQuadrant(quadrant), None, None);
      Ok(s.(tasks := tasks))
  }

  // ---------- write.go ----------

  /** `wellFormed` is the verdict on title, description and colour. */
  datatype Draft = Draft(parent: Option<Id>, quadrant: QuadrantArg, deadline: Option<int>, deadlineHasTime: bool, wellFormed: bool)

  datatype Patch = Patch(deadline: Option<int>, deadlineHasTime: Option<bool>, clearDeadline: bool, wellFormed: bool)

  /** The account's limits; none for a plan that has none. */
  function ActiveTaskLimit(plan: Plan): Option<nat> {
    if plan == Free then Some(FREE_ACTIVE_TASKS) else None
  }

  function TaskLinkLimit(plan: Plan): Option<nat> {
    if plan == Free then Some(FREE_TASK_LINKS) else None
  }

  function ApplyDraft(t: Task, draft: Draft): Task {
    t.(deadline := draft.deadline, deadlineHasTime := draft.deadline.Some? && draft.deadlineHasTime)
  }

  function ApplyPatch(t: Task, patch: Patch): Task {
    if patch.clearDeadline then t.(deadline := None, deadlineHasTime := false)
    else if patch.deadline.Some? then
      t.(deadline := patch.deadline,
         deadlineHasTime := if patch.deadlineHasTime.Some? then patch.deadlineHasTime.value else t.deadlineHasTime)
    else if patch.deadlineHasTime.Some? then
      t.(deadlineHasTime := t.deadline.Some? && patch.deadlineHasTime.value)
    else t
  }

  /** The rows as far as the new task's own insert, and the new row. A parent's
      placements are thrown away; a quadrant's are written. */
  ghost function DraftToTask(tasks: Rows, draft: Draft): Result<(Rows, Task)> {
    match draft.parent
    case Some(p) =>
      if !Live(tasks, p) then Err(TaskNotFound)
      else
        var placed :- Placing(Listing(tasks, UnderParent(p)), None, None);
        var item :- NewSubtask(p, tasks[p], placed.position);
        Ok((tasks, ApplyDraft(item, draft)))
    case None =>
      if !draft.quadrant.Known? then Err(ValidationFailed)
      else
        var placed :- Placing(Listing(tasks, InQuadrant(draft.quadrant.quadrant)), None, None);
        Ok((Reposition(tasks, placed.placements), ApplyDraft(NewRegular(draft.quadrant.quadrant, placed.position), draft)))
  }

  ghost function Create(s: State, setup: Setup, id: Id, draft: Draft): Result<State> {
    var limit := ActiveTaskLimit(setup.plan);
    if limit.Some? && CountActive(s.tasks) >= limit.value then Err(QuotaLimitReached)
    else
      var made :- DraftToTask(s.tasks, draft);
      if !draft.wellFormed || !Validate(id, made.1) then Err(ValidationFailed)
      else
        var tasks :- InsertRow(made.0, id, made.1);
        Ok(Settle(s, Work(tasks, s.ledger, NO_DELTA.(tasksCreated := 1))))
  }

  function Update(s: State, id: Id, patch: Patch): Result<State> {
    if !Live(s.tasks, id) then Err(TaskNotFound)
    else if s.tasks[id].IsCompleted() then Err(CompletedTaskFrozen)
    else
      var item := ApplyPatch(s.tasks[id], patch);
      if !patch.wellFormed || !Validate(id, item) then Err(ValidationFailed)
      else
        var tasks :- UpdateRow(s.tasks, id, item);
        Ok(s.(tasks := tasks))
  }

  // ---------- achievement/service.go ----------

  /** Everything the catalogue can watch, read once. */
  datatype Metrics = Metrics(
    tasksCompleted: int, q1TasksCompleted: int, lifetimeXP: int, level: int,
    longestStreak: int, linksCreated: int, graphOpenedDays: int)

  function ReadMetrics(s: State): Metrics {
    Metrics(s.stats.tasksCompleted + s.stats.subtasksCompleted,
            |set id | id in s.tasks && s.tasks[id].deletedAt.None?
                      && s.tasks[id].quadrantAtCompletion == Some(ImportantUrgent)|,
            s.stats.lifetimeXP, s.stats.level, s.stats.longestStreak, s.stats.linksCreated, s.stats.graphOpenedDays)
  }

  function Value(m: Metrics, metric: Metric): int {
    match metric
    case TasksCompleted => m.tasksCompleted
    case Q1TasksCompleted => m.q1TasksCompleted
    case LifetimeXP => m.lifetimeXP
    case Level => m.level
    case LongestStreak => m.longestStreak
    case LinksCreated => m.linksCreated
    case GraphOpenedDays => m.graphOpenedDays
  }

  predicate Earned(m: Metrics, a: Achievement) {
    a.metric.Some? && Value(m, a.metric.value) >= a.threshold
  }

  /** The ids unlocked by walking the catalogue, each as its row is first written. */
  function Unlocks(m: Metrics, catalogue: seq<Achievement>, held: set<Id>): seq<Id> {
    if |catalogue| == 0 then []
    else if catalogue[0].id in held || !Earned(m, catalogue[0]) then Unlocks(m, catalogue[1..], held)
    else [catalogue[0].id] + Unlocks(m, catalogue[1..], held + {catalogue[0].id})
  }

  function Evaluate(s: State, setup: Setup): State {
    var unlocked := Unlocks(ReadMetrics(s), setup.catalogue, s.held);
    s.(held := s.held + (set id | id in unlocked),
       stats := ApplyStats(s.stats, NO_DELTA.(achievementsUnlocked := |unlocked|)))
  }

  // ---------- graph/links.go and domain/link/link.go ----------

  predicate Directed(kind: LinkType) {
    kind == Blocks || kind == DependsOn
  }

  /** Two links join the same pair; an undirected pair reads the same both ways. */
  predicate SameEnds(a: Link, b: Link) {
    a.kind == b.kind
    && ((a.source == b.source && a.target == b.target)
        || (!Directed(a.kind) && a.source == b.target && a.target == b.source))
  }

  /** The two uniqueness indexes of task_links. */
  predicate Duplicates(links: map<Id, Link>, id: Id, link: Link) {
    exists k :: k in links && k != id && SameEnds(links[k], link)
  }

  predicate ParentOf(tasks: Rows, parent: Id, child: Id)
    requires child in tasks
  {
    tasks[child].parent == Some(parent)
  }

  /** The type sent, RELATED when none was. */
  function SentKind(kind: KindArg): LinkType {
    if kind.KindOf? then kind.kind else Related
  }

  function CreateLink(s: State, setup: Setup, id: Id, source: Id, target: Id, kind: KindArg): Result<State> {
    var made := Link(source, target, SentKind(kind));
    var limit := TaskLinkLimit(setup.plan);
    if kind.BadKind? || source == NIL || target == NIL || id == NIL then Err(ValidationFailed)
    else if source == target then Err(SelfLink)
    else if !Live(s.tasks, source) || !Live(s.tasks, target) then Err(TaskNotFound)
    else if ParentOf(s.tasks, source, target) || ParentOf(s.tasks, target, source) then Err(DuplicateLink)
    else if limit.Some? && |s.links| >= limit.value then Err(QuotaLimitReached)
    else if Duplicates(s.links, id, made) then Err(DuplicateLink)
    else if id in s.links then Err(ValidationFailed)
    else
      Ok(Evaluate(s.(links := s.links[id := made],
                     stats := ApplyStats(s.stats, NO_DELTA.(linksCreated := 1))), setup))
  }

  function RetypeLink(s: State, id: Id, kind: KindArg): Result<State> {
    if id !in s.links then Err(TaskNotFound)
    else if !kind.KindOf? then Err(ValidationFailed)
    else
      var retyped := s.links[id].(kind := kind.kind);
      if Duplicates(s.links, id, retyped) then Err(DuplicateLink)
      else Ok(s.(links := s.links[id := retyped]))
  }

  function DeleteLink(s: State, id: Id): Result<State> {
    if id !in s.links then Err(TaskNotFound)
    else Ok(s.(links := s.links - {id}))
  }

  // ---------- runs ----------

  datatype Request =
    | DoCreate(id: Id, draft: Draft)
    | DoUpdate(id: Id, patch: Patch)
    | DoComplete(id: Id, now: int)
    | DoReopen(id: Id)
    | DoDelete(id: Id, now: int)
    | DoMove(id: Id, move: Move)
    | DoPromote(id: Id, asked: QuadrantArg)
    | DoLink(id: Id, source: Id, target: Id, linkType: KindArg)
    | DoRetype(id: Id, kind: KindArg)
    | DoUnlink(id: Id)

  ghost function Serve(s: State, setup: Setup, request: Request): Result<State> {
    match request
    case DoCreate(id, draft) => Create(s, setup, id, draft)
    case DoUpdate(id, patch) => Update(s, id, patch)
    case DoComplete(id, now) => Complete(s, setup, id, now)
    case DoReopen(id) => Reopen(s, id)
    case DoDelete(id, now) => Delete(s, id, now)
    case DoMove(id, move) => MoveTask(s, id, move)
    case DoPromote(id, asked) => Promote(s, id, asked)
    case DoLink(id, source, target, kind) => CreateLink(s, setup, id, source, target, kind)
    case DoRetype(id, kind) => RetypeLink(s, id, kind)
    case DoUnlink(id) => DeleteLink(s, id)
  }

  /** A refused request rolls back. */
  ghost function Next(s: State, setup: Setup, request: Request): State {
    var r := Serve(s, setup, request);
    if r.Ok? then r.value else s
  }

  ghost function Run(s: State, setup: Setup, requests: seq<Request>): State {
    if |requests| == 0 then s
    else Next(Run(s, setup, requests[..|requests| - 1]), setup, requests[|requests| - 1])
  }

  const NEW_ACCOUNT := State(map[], [], Stats(0, 1, 0, 0, 0, 0, 0, 0, 0), {}, map[])
}
