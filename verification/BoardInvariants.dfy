/** What every request keeps, and therefore what holds after any run of them. */
module BoardInvariants {
  import opened Types
  import opened Position
  import opened Tasks
  import opened Scopes
  import opened Ledger
  import opened Progression
  import opened Board

  // ---------- the invariant ----------

  /** A row's parent is a top-level row, and a live row's parent is live. */
  ghost predicate RowPlaced(tasks: Rows, id: Id)
    requires id in tasks
  {
    var t := tasks[id];
    && id != NIL
    && WellPlaced(id, t)
    && (t.parent.Some? ==>
          && t.parent.value in tasks
          && tasks[t.parent.value].parent.None?
          && (t.deletedAt.None? ==> tasks[t.parent.value].deletedAt.None?))
  }

  /** A forest of depth at most one. */
  ghost predicate TreeOK(tasks: Rows) {
    forall id {:trigger RowPlaced(tasks, id)} :: id in tasks ==> RowPlaced(tasks, id)
  }

  /** What was paid is what the recorded quadrant pays a task or a subtask. */
  ghost predicate PaidItsPrice(t: Task) {
    t.IsCompleted() && SnapshotWhole(t)
    ==> exists isSubtask :: t.xpAwarded.value == Reward(t.quadrantAtCompletion.value, isSubtask)
  }

  ghost predicate RowOK(t: Task) {
    SnapshotWhole(t) && PaidItsPrice(t) && (t.deadlineHasTime ==> t.deadline.Some?)
  }

  ghost predicate RowsOK(tasks: Rows) {
    forall id :: id in tasks ==> RowOK(tasks[id])
  }

  /** What a task's ledger entries must add up to. */
  ghost function Paid(tasks: Rows, gone: set<Id>, id: Id): int {
    if Live(tasks, id) && id !in gone && tasks[id].IsCompleted() && tasks[id].xpAwarded.Some?
    then tasks[id].xpAwarded.value else 0
  }

  ghost predicate SumsMatch(tasks: Rows, ledger: seq<Entry>, gone: set<Id>) {
    forall id {:trigger SumFor(ledger, id)} {:trigger Paid(tasks, gone, id)} :: id in tasks ==> SumFor(ledger, id) == Paid(tasks, gone, id)
  }

  ghost predicate EntriesKnown(tasks: Rows, ledger: seq<Entry>) {
    forall i :: 0 <= i < |ledger| ==> ledger[i].task in tasks
  }

  ghost predicate TotalMatches(ledger: seq<Entry>, stats: Stats, delta: Delta) {
    stats.lifetimeXP + delta.xp == Total(ledger)
  }

  ghost predicate CountMatches(tasks: Rows, gone: set<Id>, stats: Stats, delta: Delta) {
    stats.tasksCompleted + stats.subtasksCompleted + delta.tasksCompleted + delta.subtasksCompleted
    == |LiveCompleted(tasks) - gone|
  }

  /** The ledger, the aggregate together with the change in flight, and the rows
      tell the same story. `gone` are rows about to be marked deleted. */
  ghost predicate Books(w: Work, stats: Stats, gone: set<Id>) {
    && EntriesKnown(w.tasks, w.ledger)
    && Numbered(w.ledger)
    && SumsMatch(w.tasks, w.ledger, gone)
    && TotalMatches(w.ledger, stats, w.delta)
    && CountMatches(w.tasks, gone, stats, w.delta)
  }

  ghost predicate LinkOK(tasks: Rows, link: Link) {
    && link.source != link.target
    && Live(tasks, link.source) && Live(tasks, link.target)
    && tasks[link.source].parent != Some(link.target)
    && tasks[link.target].parent != Some(link.source)
  }

  ghost predicate LinksOK(tasks: Rows, links: map<Id, Link>) {
    && (forall k :: k in links ==> LinkOK(tasks, links[k]))
    && (forall j, k :: j in links && k in links && j != k ==> !SameEnds(links[j], links[k]))
  }

  ghost predicate Inv(s: State, setup: Setup) {
    && TreeOK(s.tasks)
    && RowsOK(s.tasks)
    && Books(Begin(s), s.stats, {})
    && s.stats.level == LevelForXP(s.stats.lifetimeXP)
    && s.stats.achievementsUnlocked == |s.held|
    && LinksOK(s.tasks, s.links)
    && (setup.plan == Free ==> |s.links| <= FREE_TASK_LINKS)
  }

  // ---------- single steps ----------

  lemma RewardPositive(quadrant: Quadrant, isSubtask: bool)
    ensures Reward(quadrant, isSubtask) > 0
  {
    RewardIsNearestShare(quadrant);
  }

  /** A row rewritten in place, its parent the same, is always storable. */
  lemma RewriteStorable(tasks: Rows, id: Id, t: Task)
    requires TreeOK(tasks) && id in tasks
    requires t.parent == tasks[id].parent && t.quadrant == tasks[id].quadrant && SnapshotWhole(t)
    ensures Storable(tasks, id, t)
  {
    assert RowPlaced(tasks, id);
    forall child | child in tasks && t.parent.Some?
      ensures tasks[child].parent != Some(id)
    {
      assert RowPlaced(tasks, child);
    }
  }

  lemma RewriteKeepsTree(tasks: Rows, id: Id, t: Task)
    requires TreeOK(tasks) && id in tasks
    requires t.parent == tasks[id].parent && t.quadrant == tasks[id].quadrant && t.deletedAt == tasks[id].deletedAt
    ensures TreeOK(tasks[id := t])
  {
    forall other | other in tasks
      ensures RowPlaced(tasks[id := t], other)
    {
      assert RowPlaced(tasks, other);
    }
  }

  lemma RewriteKeepsRows(tasks: Rows, id: Id, t: Task)
    requires RowsOK(tasks) && RowOK(t)
    ensures RowsOK(tasks[id := t])
  {
  }

  lemma CompletedGains(tasks: Rows, id: Id, t: Task)
    requires Live(tasks, id) && !tasks[id].IsCompleted() && t.IsCompleted() && t.deletedAt.None?
    ensures LiveCompleted(tasks[id := t]) == LiveCompleted(tasks) + {id} && id !in LiveCompleted(tasks)
  {
  }

  lemma CompletedLoses(tasks: Rows, id: Id, t: Task)
    requires Live(tasks, id) && tasks[id].IsCompleted() && !t.IsCompleted()
    ensures LiveCompleted(tasks[id := t]) == LiveCompleted(tasks) - {id} && id in LiveCompleted(tasks)
  {
  }

  ghost predicate WorkOK(w: Work, stats: Stats) {
    TreeOK(w.tasks) && RowsOK(w.tasks) && Books(w, stats, {})
  }

  function GrantEntry(w: Work, id: Id, quadrant: Quadrant): Entry
    requires id in w.tasks
  {
    var isSubtask := w.tasks[id].IsSubtask();
    Entry(id, Reward(quadrant, isSubtask), GrantSource(isSubtask),
          Count(w.ledger, id, GrantSource(isSubtask)) + 1, Priced(quadrant, CONFIG_VERSION))
  }

  function AwardedRow(t: Task, quadrant: Quadrant, via: Via, now: int): Task {
    Finished(t, now, Reward(quadrant, t.IsSubtask()), quadrant, via)
  }

  /** What paying for one open task does. */
  function Awarded(w: Work, id: Id, quadrant: Quadrant, via: Via, now: int): Work
    requires id in w.tasks
  {
    var isSubtask := w.tasks[id].IsSubtask();
    Work(w.tasks[id := AwardedRow(w.tasks[id], quadrant, via, now)],
         w.ledger + [GrantEntry(w, id, quadrant)],
         Paying(w.delta, Reward(quadrant, isSubtask), isSubtask, 1))
  }

  /** An open task can always be paid for: no check of the database refuses it. */
  lemma AwardSucceeds(w: Work, id: Id, quadrant: Quadrant, via: Via, now: int)
    requires Live(w.tasks, id) && !w.tasks[id].IsCompleted() && Numbered(w.ledger)
    requires Storable(w.tasks, id, AwardedRow(w.tasks[id], quadrant, via, now))
    ensures Award(w, id, quadrant, via, now) == Ok(Awarded(w, id, quadrant, via, now))
  {
    RewardPositive(quadrant, w.tasks[id].IsSubtask());
    NextGrantIsFree(w.ledger, GrantEntry(w, id, quadrant));
  }

  /** One row rewritten and one entry written: the sums still match when the
      entry makes up the difference for that row. */
  lemma EntryKeepsSums(tasks: Rows, ledger: seq<Entry>, gone: set<Id>, entry: Entry, row: Task)
    requires SumsMatch(tasks, ledger, gone) && EntriesKnown(tasks, ledger) && entry.task in tasks
    requires Paid(tasks[entry.task := row], gone, entry.task) == Paid(tasks, gone, entry.task) + entry.amount
    ensures SumsMatch(tasks[entry.task := row], ledger + [entry], gone)
    ensures EntriesKnown(tasks[entry.task := row], ledger + [entry])
  {
    Appended(ledger, entry);
  }

  lemma EntryKeepsTotal(ledger: seq<Entry>, stats: Stats, delta: Delta, entry: Entry, isSubtask: bool, done: int, xp: int)
    requires TotalMatches(ledger, stats, delta)
    requires entry.amount == xp
    ensures TotalMatches(ledger + [entry], stats, Paying(delta, xp, isSubtask, done))
  {
    Appended(ledger, entry);
  }

  lemma AwardedKeepsBooks(w: Work, stats: Stats, id: Id, quadrant: Quadrant, via: Via, now: int)
    requires Books(w, stats, {}) && Live(w.tasks, id) && !w.tasks[id].IsCompleted()
    ensures Books(Awarded(w, id, quadrant, via, now), stats, {})
  {
    var row, entry := AwardedRow(w.tasks[id], quadrant, via, now), GrantEntry(w, id, quadrant);
    EntryKeepsSums(w.tasks, w.ledger, {}, entry, row);
    EntryKeepsTotal(w.ledger, stats, w.delta, entry, w.tasks[id].IsSubtask(), 1, entry.amount);
    NumberedAppend(w.ledger, entry);
    CompletedGains(w.tasks, id, row);
    assert LiveCompleted(w.tasks[id := row]) - {} == (LiveCompleted(w.tasks) - {}) + {id};
  }

  lemma AwardedRowOK(t: Task, quadrant: Quadrant, via: Via, now: int)
    requires RowOK(t)
    ensures RowOK(AwardedRow(t, quadrant, via, now))
  {
    assert AwardedRow(t, quadrant, via, now).xpAwarded.value == Reward(quadrant, t.IsSubtask());
  }

  lemma AwardKeeps(w: Work, stats: Stats, id: Id, quadrant: Quadrant, via: Via, now: int)
    requires WorkOK(w, stats) && Live(w.tasks, id) && !w.tasks[id].IsCompleted()
    ensures Award(w, id, quadrant, via, now) == Ok(Awarded(w, id, quadrant, via, now))
    ensures WorkOK(Awarded(w, id, quadrant, via, now), stats)
  {
    AwardKeepsRows(w.tasks, id, quadrant, via, now);
    AwardSucceeds(w, id, quadrant, via, now);
    AwardedKeepsBooks(w, stats, id, quadrant, via, now);
  }

  lemma AwardKeepsRows(tasks: Rows, id: Id, quadrant: Quadrant, via: Via, now: int)
    requires TreeOK(tasks) && RowsOK(tasks) && id in tasks
    ensures var row := AwardedRow(tasks[id], quadrant, via, now);
            Storable(tasks, id, row) && TreeOK(tasks[id := row]) && RowsOK(tasks[id := row])
  {
    var row := AwardedRow(tasks[id], quadrant, via, now);
    AwardedRowOK(tasks[id], quadrant, via, now);
    RewriteStorable(tasks, id, row);
    RewriteKeepsTree(tasks, id, row);
    RewriteKeepsRows(tasks, id, row);
  }

  /** The rows after the cascade: exactly the subtasks still open are completed,
      through the parent; no other row moves. */
  ghost function CascadeRows(tasks: Rows, children: seq<Id>, quadrant: Quadrant, now: int): Rows {
    map id | id in tasks ::
      (if id in children && !tasks[id].IsCompleted()
       then AwardedRow(tasks[id], quadrant, ParentCascade, now) else tasks[id])
  }

  lemma CascadeRowsStep(tasks: Rows, children: seq<Id>, quadrant: Quadrant, now: int)
    requires |children| > 0 && children[0] in tasks && children[0] !in children[1..]
    ensures var child, rest := children[0], children[1..];
            CascadeRows(tasks, children, quadrant, now)
            == CascadeRows(if tasks[child].IsCompleted() then tasks
                           else tasks[child := AwardedRow(tasks[child], quadrant, ParentCascade, now)], rest, quadrant, now)
  {
    assert forall id :: id in children <==> id == children[0] || id in children[1..];
  }

  ghost predicate Distinct(ids: seq<Id>) {
    forall i, j :: 0 <= i < j < |ids| ==> ids[i] != ids[j]
  }

  ghost predicate AllLive(tasks: Rows, ids: seq<Id>) {
    forall i :: 0 <= i < |ids| ==> Live(tasks, ids[i])
  }

  lemma ListTail(tasks: Rows, ids: seq<Id>)
    requires |ids| > 0 && AllLive(tasks, ids) && Distinct(ids)
    ensures AllLive(tasks, ids[1..]) && Distinct(ids[1..]) && ids[0] !in ids[1..] && Live(tasks, ids[0])
  {
  }

  lemma AwardKeepsLive(w: Work, id: Id, quadrant: Quadrant, via: Via, now: int, ids: seq<Id>)
    requires Live(w.tasks, id) && AllLive(w.tasks, ids)
    ensures AllLive(Awarded(w, id, quadrant, via, now).tasks, ids)
  {
  }

  lemma {:induction false} CascadeCompletesTheOpen(w: Work, stats: Stats, children: seq<Id>, quadrant: Quadrant, now: int)
    requires WorkOK(w, stats) && AllLive(w.tasks, children) && Distinct(children)
    ensures var r := Cascade(w, children, quadrant, now);
            r.Ok? && WorkOK(r.value, stats) && r.value.tasks == CascadeRows(w.tasks, children, quadrant, now)
    decreases |children|
  {
    if |children| == 0 {
      assert CascadeRows(w.tasks, children, quadrant, now) == w.tasks;
    } else {
      ListTail(w.tasks, children);
      CascadeRowsStep(w.tasks, children, quadrant, now);
      var next := CascadePaid(w, children[0], quadrant, now);
      CascadeFirst(w, stats, children, quadrant, now);
      CascadeCompletesTheOpen(next, stats, children[1..], quadrant, now);
    }
  }

  /** One subtask of the cascade, paid for if it is open. */
  function CascadePaid(w: Work, child: Id, quadrant: Quadrant, now: int): Work
    requires child in w.tasks
  {
    if w.tasks[child].IsCompleted() then w else Awarded(w, child, quadrant, ParentCascade, now)
  }

  lemma CascadeFirst(w: Work, stats: Stats, children: seq<Id>, quadrant: Quadrant, now: int)
    requires WorkOK(w, stats) && |children| > 0 && Live(w.tasks, children[0]) && AllLive(w.tasks, children[1..])
    ensures var next := CascadePaid(w, children[0], quadrant, now);
            && WorkOK(next, stats) && AllLive(next.tasks, children[1..])
            && Cascade(w, children, quadrant, now) == Cascade(next, children[1..], quadrant, now)
            && next.tasks == (if w.tasks[children[0]].IsCompleted() then w.tasks
                              else w.tasks[children[0] := AwardedRow(w.tasks[children[0]], quadrant, ParentCascade, now)])
  {
    if !w.tasks[children[0]].IsCompleted() {
      AwardKeeps(w, stats, children[0], quadrant, ParentCascade, now);
      AwardKeepsLive(w, children[0], quadrant, ParentCascade, now, children[1..]);
    }
  }

  // ---------- lists of subtasks ----------

  /** The listing of a scope names each of its rows once. */
  lemma ListingIds(tasks: Rows, scope: Scope)
    ensures var ids := SlotIds(Listing(tasks, scope));
            && Distinct(ids)
            && AllLive(tasks, ids)
            && (forall id :: id in ids <==> id in Members(tasks, scope))
  {
    var slots := Listing(tasks, scope);
    var ids := SlotIds(slots);
    ListingHolds(tasks, scope);
    forall i | 0 <= i < |ids|
      ensures ids[i] in Members(tasks, scope) && slots[i].position == tasks[ids[i]].position
    {
      assert slots[i] in slots;
    }
    forall i, j | 0 <= i < j < |ids|
      ensures ids[i] != ids[j]
    {
      assert Before(slots[i], slots[j]);
    }
    forall id | id in Members(tasks, scope)
      ensures id in ids
    {
      var slot := Slot(id, tasks[id].position);
      assert slot in slots;
      var i :| 0 <= i < |slots| && slots[i] == slot;
      assert ids[i] == id;
    }
  }

  // ---------- achievements ----------

  ghost function EarnedIds(m: Metrics, catalogue: seq<Achievement>): set<Id> {
    if |catalogue| == 0 then {}
    else (if Earned(m, catalogue[0]) then {catalogue[0].id} else {}) + EarnedIds(m, catalogue[1..])
  }

  ghost function IdSet(ids: seq<Id>): set<Id> {
    if |ids| == 0 then {} else {ids[0]} + IdSet(ids[1..])
  }

  lemma {:induction false} IdSetHolds(ids: seq<Id>)
    ensures IdSet(ids) == set id | id in ids
    decreases |ids|
  {
    if |ids| > 0 {
      IdSetHolds(ids[1..]);
      assert ids == [ids[0]] + ids[1..];
    }
  }

  lemma PeelOff(first: Id, rest: set<Id>, held: set<Id>)
    requires first !in held
    ensures ({first} + rest) - held == {first} + (rest - (held + {first}))
    ensures |({first} + rest) - held| == 1 + |rest - (held + {first})|
  {
    assert ({first} + rest) - held == {first} + (rest - (held + {first}));
  }

  /** Walking the catalogue unlocks, once each, exactly the entries that are earned and not held. */
  lemma {:induction false} UnlocksAreFresh(m: Metrics, catalogue: seq<Achievement>, held: set<Id>)
    ensures IdSet(Unlocks(m, catalogue, held)) == EarnedIds(m, catalogue) - held
    ensures |Unlocks(m, catalogue, held)| == |EarnedIds(m, catalogue) - held|
    decreases |catalogue|
  {
    if |catalogue| > 0 {
      var first, rest := catalogue[0].id, catalogue[1..];
      if first in held || !Earned(m, catalogue[0]) {
        UnlocksAreFresh(m, rest, held);
        assert EarnedIds(m, catalogue) - held == EarnedIds(m, rest) - held;
      } else {
        UnlocksAreFresh(m, rest, held + {first});
        PeelOff(first, EarnedIds(m, rest), held);
        var later := Unlocks(m, rest, held + {first});
        assert ([first] + later)[1..] == later;
      }
    }
  }

  /** What joins a set, counted. */
  lemma JoinSize(held: set<Id>, more: set<Id>)
    ensures |held + more| == |held| + |more - held|
    ensures held + (more - held) == held + more
  {
    assert held + (more - held) == held + more;
  }

  /** After evaluating, the account holds what it held and everything it has
      earned, and the counter has moved by exactly what is new. */
  lemma EvaluateHoldsTheEarned(s: State, setup: Setup)
    ensures var r := Evaluate(s, setup);
            && r.held == s.held + EarnedIds(ReadMetrics(s), setup.catalogue)
            && r.stats == s.stats.(achievementsUnlocked := s.stats.achievementsUnlocked + |r.held| - |s.held|)
            && r == s.(held := r.held, stats := r.stats)
  {
    var metrics := ReadMetrics(s);
    UnlocksAreFresh(metrics, setup.catalogue, s.held);
    IdSetHolds(Unlocks(metrics, setup.catalogue, s.held));
    JoinSize(s.held, EarnedIds(metrics, setup.catalogue));
  }

  lemma EvaluateKeepsInv(s: State, setup: Setup)
    requires Inv(s, setup)
    ensures Inv(Evaluate(s, setup), setup)
  {
    EvaluateHoldsTheEarned(s, setup);
  }
}
