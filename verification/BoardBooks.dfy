/** What completing, reopening and deleting write in the ledger, and how they
    move each counter of the aggregate. */
module BoardBooks {
  import opened Types
  import opened Tasks
  import opened Scopes
  import opened Ledger
  import opened Progression
  import opened Board
  import opened BoardInvariants
  import opened BoardRequests
  import opened BoardRemovals
  import opened BoardEffects

  // ---------- counting ----------

  /** How many of the ids are among those wanted. */
  function CountIn(ids: seq<Id>, wanted: set<Id>): nat {
    if |ids| == 0 then 0 else (if ids[0] in wanted then 1 else 0) + CountIn(ids[1..], wanted)
  }

  lemma {:induction false} CountWithout(ids: seq<Id>, wanted: set<Id>, id: Id)
    requires id !in ids
    ensures CountIn(ids, wanted - {id}) == CountIn(ids, wanted)
  {
    if |ids| > 0 {
      CountWithout(ids[1..], wanted, id);
    }
  }

  /** A listing that names everybody wanted, nobody twice, counts them. */
  lemma {:induction false} CountInSize(ids: seq<Id>, wanted: set<Id>)
    requires Distinct(ids) && forall id :: id in wanted ==> id in ids
    ensures CountIn(ids, wanted) == |wanted|
  {
    if |ids| == 0 {
      assert wanted == {};
    } else {
      var first, rest := ids[0], ids[1..];
      assert first !in rest;
      forall id | id in wanted - {first}
        ensures id in rest
      {
        var i :| 0 <= i < |ids| && ids[i] == id;
        assert rest[i - 1] == id;
      }
      CountInSize(rest, wanted - {first});
      CountWithout(rest, wanted, first);
    }
  }

  // ---------- the cascade ----------

  /** A line of the ledger that pays for one completion. */
  predicate PaysFor(e: Entry, isSubtask: bool, quadrant: Quadrant) {
    && e.amount == Price(quadrant, isSubtask)
    && e.source == (if isSubtask then SubtaskCompleted else TaskCompleted)
    && e.metadata == Priced(quadrant, 1)
  }

  /** The ledger grew by one line for each of the paid. */
  ghost predicate PaidLines(before: seq<Entry>, after: seq<Entry>, paid: set<Id>, quadrant: Quadrant, n: nat) {
    && |after| == |before| + n && after[..|before|] == before
    && (forall i :: |before| <= i < |after| ==> after[i].task in paid && PaysFor(after[i], true, quadrant))
  }

  lemma LinesJoin(a: seq<Entry>, b: seq<Entry>, c: seq<Entry>, paid: set<Id>, quadrant: Quadrant, m: nat, n: nat)
    requires PaidLines(a, b, paid, quadrant, m) && PaidLines(b, c, paid, quadrant, n)
    ensures PaidLines(a, c, paid, quadrant, m + n)
  {
    forall i | |a| <= i < |b|
      ensures c[i] == b[i]
    {
      assert c[..|b|][i] == c[i];
    }
    assert c[..|a|] == c[..|b|][..|a|];
  }

  lemma PaidLine(w: Work, child: Id, open: set<Id>, quadrant: Quadrant)
    requires child in w.tasks && w.tasks[child].IsSubtask() && child in open
    ensures PaidLines(w.ledger, w.ledger + [GrantEntry(w, child, quadrant)], open, quadrant, 1)
  {
    PriceIsReward(quadrant, true);
  }

  /** What the cascade adds to the change: so many subtasks, so many times the price. */
  function Credited(delta: Delta, n: nat, price: int): Delta {
    delta.(xp := delta.xp + n * price, subtasksCompleted := delta.subtasksCompleted + n)
  }

  lemma CreditedTwice(delta: Delta, n: nat, price: int)
    ensures Credited(Credited(delta, 1, price), n, price) == Credited(delta, n + 1, price)
    ensures Credited(delta, 0, price) == delta
  {
    assert (n + 1) * price == n * price + price;
  }

  lemma OnePaid(w: Work, child: Id, quadrant: Quadrant, now: int)
    requires child in w.tasks && w.tasks[child].IsSubtask()
    ensures Awarded(w, child, quadrant, ParentCascade, now).delta == Credited(w.delta, 1, Price(quadrant, true))
  {
    PriceIsReward(quadrant, true);
  }

  /** What a cascade over these children makes of a transaction in flight. */
  ghost predicate PaidUp(w: Work, r: Work, open: set<Id>, quadrant: Quadrant, n: nat) {
    r.delta == Credited(w.delta, n, Price(quadrant, true)) && PaidLines(w.ledger, r.ledger, open, quadrant, n)
  }

  lemma OneMorePaid(w: Work, child: Id, open: set<Id>, quadrant: Quadrant, now: int, r: Work, n: nat)
    requires child in w.tasks && w.tasks[child].IsSubtask() && child in open
    requires PaidUp(Awarded(w, child, quadrant, ParentCascade, now), r, open, quadrant, n)
    ensures PaidUp(w, r, open, quadrant, n + 1)
  {
    OnePaid(w, child, quadrant, now);
    PaidLine(w, child, open, quadrant);
    CreditedTwice(w.delta, n, Price(quadrant, true));
    LinesJoin(w.ledger, w.ledger + [GrantEntry(w, child, quadrant)], r.ledger, open, quadrant, 1, n);
  }

  lemma FirstPaid(w: Work, children: seq<Id>, open: set<Id>, quadrant: Quadrant, now: int, r: Work)
    requires |children| > 0 && children[0] in w.tasks && w.tasks[children[0]].IsSubtask()
    requires children[0] in open <==> !w.tasks[children[0]].IsCompleted()
    requires PaidUp(CascadePaid(w, children[0], quadrant, now), r, open, quadrant, CountIn(children[1..], open))
    ensures PaidUp(w, r, open, quadrant, CountIn(children, open))
  {
    if children[0] in open {
      OneMorePaid(w, children[0], open, quadrant, now, r, CountIn(children[1..], open));
    }
  }

  /** Which of the children are open. */
  ghost predicate OpenOnes(tasks: Rows, children: seq<Id>, open: set<Id>) {
    forall c :: c in children ==> c in tasks && tasks[c].IsSubtask() && (c in open <==> !tasks[c].IsCompleted())
  }

  lemma OpenOnesLeft(w: Work, children: seq<Id>, open: set<Id>, quadrant: Quadrant, now: int)
    requires |children| > 0 && children[0] !in children[1..] && OpenOnes(w.tasks, children, open)
    ensures OpenOnes(CascadePaid(w, children[0], quadrant, now).tasks, children[1..], open)
    ensures children[0] in children
  {
    assert children[0] in children;
    forall c | c in children[1..]
      ensures c in children
    {
    }
  }

  lemma {:induction false} CascadePays(w: Work, stats: Stats, children: seq<Id>, open: set<Id>, quadrant: Quadrant, now: int)
    requires WorkOK(w, stats) && AllLive(w.tasks, children) && Distinct(children) && OpenOnes(w.tasks, children, open)
    ensures var r := Cascade(w, children, quadrant, now);
            r.Ok? && PaidUp(w, r.value, open, quadrant, CountIn(children, open))
    decreases |children|
  {
    if |children| == 0 {
      CreditedTwice(w.delta, 0, Price(quadrant, true));
    } else {
      ListTail(w.tasks, children);
      OpenOnesLeft(w, children, open, quadrant, now);
      CascadeFirst(w, stats, children, quadrant, now);
      CascadePays(CascadePaid(w, children[0], quadrant, now), stats, children[1..], open, quadrant, now);
      FirstPaid(w, children, open, quadrant, now, Cascade(w, children, quadrant, now).value);
    }
  }

  // ---------- a whole completion ----------

  /** The change of the task itself, before its subtasks. */
  function FirstDelta(quadrant: Quadrant, isSubtask: bool): Delta {
    Delta(Price(quadrant, isSubtask), 0, if isSubtask then 0 else 1, if isSubtask then 1 else 0, 0, 0)
  }

  lemma FirstAward(s: State, id: Id, quadrant: Quadrant, now: int)
    requires id in s.tasks
    ensures var w, isSubtask := Awarded(Begin(s), id, quadrant, Direct, now), s.tasks[id].parent.Some?;
            && w.delta == FirstDelta(quadrant, isSubtask)
            && w.ledger == s.ledger + [GrantEntry(Begin(s), id, quadrant)]
            && GrantEntry(Begin(s), id, quadrant).task == id
            && PaysFor(GrantEntry(Begin(s), id, quadrant), isSubtask, quadrant)
  {
    PriceIsReward(quadrant, s.tasks[id].parent.Some?);
  }

  lemma ChildrenToPay(tasks: Rows, id: Id, row: Task)
    requires TreeOK(tasks) && Live(tasks, id) && tasks[id].parent.None? && row.parent == tasks[id].parent && row.deletedAt.None?
    ensures var after := tasks[id := row];
            var children := SlotIds(Listing(after, UnderParent(id)));
            && Distinct(children) && AllLive(after, children)
            && OpenOnes(after, children, OpenUnder(tasks, id))
            && CountIn(children, OpenUnder(tasks, id)) == |OpenUnder(tasks, id)|
  {
    var after := tasks[id := row];
    var children := SlotIds(Listing(after, UnderParent(id)));
    ListingIds(after, UnderParent(id));
    SubtaskHasNoSubtasks(tasks, id);
    forall c | c in OpenUnder(tasks, id)
      ensures c in children
    {
      assert c in Members(tasks, UnderParent(id));
      assert c in Members(after, UnderParent(id));
    }
    forall c | c in children
      ensures after[c] == tasks[c] && c in Members(tasks, UnderParent(id))
    {
      assert c in Members(after, UnderParent(id));
    }
    CountInSize(children, OpenUnder(tasks, id));
  }

  /** What the work of a completion writes and adds up. */
  ghost predicate WorkPaid(s: State, id: Id, quadrant: Quadrant, w: Work)
    requires id in s.tasks
  {
    var isSubtask, n := s.tasks[id].parent.Some?, |OpenUnder(s.tasks, id)|;
    var first := GrantEntry(Begin(s), id, quadrant);
    && w.delta == Credited(FirstDelta(quadrant, isSubtask), n, Price(quadrant, true))
    && first.task == id && PaysFor(first, isSubtask, quadrant)
    && PaidLines(s.ledger + [first], w.ledger, OpenUnder(s.tasks, id), quadrant, n)
  }

  lemma WorkOfTaskPays(s: State, id: Id, quadrant: Quadrant, now: int)
    requires WorkOK(Begin(s), s.stats) && Live(s.tasks, id) && s.tasks[id].status == Active && s.tasks[id].parent.None?
    requires ResolveQuadrant(s.tasks, s.tasks[id]) == Ok(quadrant)
    ensures var r := CompleteWork(s, id, now); r.Ok? && WorkPaid(s, id, quadrant, r.value)
  {
    var w := Awarded(Begin(s), id, quadrant, Direct, now);
    AwardKeeps(Begin(s), s.stats, id, quadrant, Direct, now);
    FirstAward(s, id, quadrant, now);
    ChildrenToPay(s.tasks, id, w.tasks[id]);
    CascadePays(w, s.stats, SlotIds(Listing(w.tasks, UnderParent(id))), OpenUnder(s.tasks, id), quadrant, now);
  }

  lemma SubtaskPaidAlone(s: State, id: Id, quadrant: Quadrant, now: int)
    requires TreeOK(s.tasks) && Live(s.tasks, id) && s.tasks[id].parent.Some?
    ensures WorkPaid(s, id, quadrant, Awarded(Begin(s), id, quadrant, Direct, now))
  {
    FirstAward(s, id, quadrant, now);
    NobodyUnderASubtask(s.tasks, id);
    NobodyPaid(s, id, quadrant, Awarded(Begin(s), id, quadrant, Direct, now));
  }

  lemma NobodyUnderASubtask(tasks: Rows, id: Id)
    requires TreeOK(tasks) && Live(tasks, id) && tasks[id].parent.Some?
    ensures OpenUnder(tasks, id) == {}
  {
    SubtaskHasNoSubtasks(tasks, id);
    assert OpenUnder(tasks, id) <= Members(tasks, UnderParent(id));
  }

  lemma NobodyPaid(s: State, id: Id, quadrant: Quadrant, w: Work)
    requires id in s.tasks && OpenUnder(s.tasks, id) == {}
    requires var first, isSubtask := GrantEntry(Begin(s), id, quadrant), s.tasks[id].parent.Some?;
             && first.task == id && PaysFor(first, isSubtask, quadrant)
             && w.delta == FirstDelta(quadrant, isSubtask) && w.ledger == s.ledger + [first]
    ensures WorkPaid(s, id, quadrant, w)
  {
    CreditedTwice(w.delta, 0, Price(quadrant, true));
  }

  lemma WorkOfSubtaskPays(s: State, id: Id, quadrant: Quadrant, now: int)
    requires WorkOK(Begin(s), s.stats) && Live(s.tasks, id) && s.tasks[id].status == Active && s.tasks[id].parent.Some?
    requires ResolveQuadrant(s.tasks, s.tasks[id]) == Ok(quadrant)
    ensures CompleteWork(s, id, now) == Ok(Awarded(Begin(s), id, quadrant, Direct, now))
  {
    AwardKeeps(Begin(s), s.stats, id, quadrant, Direct, now);
    AloneWork(s, id, quadrant, now);
  }

  /** The aggregate moved by a change, its level following and nothing else. */
  ghost predicate StatsMoved(before: Stats, after: Stats, xp: int, tasks: int, subtasks: int) {
    && after.lifetimeXP == before.lifetimeXP + xp
    && after.level == LevelForXP(after.lifetimeXP)
    && after.tasksCompleted == before.tasksCompleted + tasks
    && after.subtasksCompleted == before.subtasksCompleted + subtasks
    && after.tasksCreated == before.tasksCreated && after.linksCreated == before.linksCreated
    && after.longestStreak == before.longestStreak && after.graphOpenedDays == before.graphOpenedDays
  }

  lemma SettledStats(s: State, w: Work)
    requires s.stats.level == LevelForXP(s.stats.lifetimeXP)
    requires w.delta == Delta(w.delta.xp, 0, w.delta.tasksCompleted, w.delta.subtasksCompleted, 0, 0)
    ensures StatsMoved(s.stats, Settle(s, w).stats, w.delta.xp, w.delta.tasksCompleted, w.delta.subtasksCompleted)
    ensures Settle(s, w).stats.achievementsUnlocked == s.stats.achievementsUnlocked
    ensures Settle(s, w).ledger == w.ledger && Settle(s, w).held == s.held && Settle(s, w).links == s.links
  {
  }

  lemma EvaluatedStats(before: Stats, s: State, setup: Setup, xp: int, tasks: int, subtasks: int)
    requires StatsMoved(before, s.stats, xp, tasks, subtasks)
    ensures StatsMoved(before, Evaluate(s, setup).stats, xp, tasks, subtasks) && Evaluate(s, setup).ledger == s.ledger
  {
    EvaluateHoldsTheEarned(s, setup);
  }

  /** What a completion writes and counts: one line at the price of the task,
      one at a subtask's price for each open subtask, and nothing before them
      touched; lifetime XP grows by exactly these, and each completion is counted
      with its own kind. */
  lemma CompletePays(s: State, setup: Setup, id: Id, now: int)
    requires Inv(s, setup) && Live(s.tasks, id) && s.tasks[id].status == Active
    ensures var r, quadrant := Serve(s, setup, DoComplete(id, now)), JudgedBy(s.tasks, id);
            && r.Ok? && quadrant.Some?
            && var isSubtask, open, written := s.tasks[id].parent.Some?, OpenUnder(s.tasks, id), |s.ledger|;
               var ledger, price := r.value.ledger, Price(quadrant.value, true);
            && |ledger| == written + 1 + |open| && ledger[..written] == s.ledger
            && ledger[written].task == id && PaysFor(ledger[written], isSubtask, quadrant.value)
            && (forall i :: written < i < |ledger| ==> ledger[i].task in open && PaysFor(ledger[i], true, quadrant.value))
            && StatsMoved(s.stats, r.value.stats, Price(quadrant.value, isSubtask) + |open| * price,
                          if isSubtask then 0 else 1, (if isSubtask then 1 else 0) + |open|)
  {
    JudgedQuadrant(s.tasks, id);
    var quadrant := JudgedBy(s.tasks, id).value;
    if s.tasks[id].parent.Some? {
      WorkOfSubtaskPays(s, id, quadrant, now);
      SubtaskPaidAlone(s, id, quadrant, now);
    } else {
      WorkOfTaskPays(s, id, quadrant, now);
    }
    PaidWorkShows(s, setup, id, quadrant, CompleteWork(s, id, now).value);
  }

  lemma PaidWorkShows(s: State, setup: Setup, id: Id, quadrant: Quadrant, w: Work)
    requires id in s.tasks && s.stats.level == LevelForXP(s.stats.lifetimeXP) && WorkPaid(s, id, quadrant, w)
    ensures var after, isSubtask, open, written := Evaluate(Settle(s, w), setup), s.tasks[id].parent.Some?, OpenUnder(s.tasks, id), |s.ledger|;
            var ledger := after.ledger;
            && |ledger| == written + 1 + |open| && ledger[..written] == s.ledger
            && ledger[written].task == id && PaysFor(ledger[written], isSubtask, quadrant)
            && (forall i :: written < i < |ledger| ==> ledger[i].task in open && PaysFor(ledger[i], true, quadrant))
            && StatsMoved(s.stats, after.stats, Price(quadrant, isSubtask) + |open| * Price(quadrant, true),
                          if isSubtask then 0 else 1, (if isSubtask then 1 else 0) + |open|)
  {
    SettledStats(s, w);
    EvaluatedStats(s.stats, Settle(s, w), setup, w.delta.xp, w.delta.tasksCompleted, w.delta.subtasksCompleted);
    var first, written := GrantEntry(Begin(s), id, quadrant), |s.ledger|;
    assert w.ledger[written] == w.ledger[..written + 1][written];
    assert w.ledger[..written] == w.ledger[..written + 1][..written];
  }

  // ---------- reopening ----------

  /** Back to work: the completion is gone, everything else is as it was. */
  ghost predicate BackToWork(before: Task, after: Task) {
    && SamePaper(before, after)
    && after.status == Active && after.completedAt == None && after.completedVia == None
    && after.quadrantAtCompletion == None && after.xpAwarded == None
  }

  lemma ReopenedIs(s: State, id: Id)
    requires id in s.tasks && s.tasks[id].xpAwarded.Some?
    ensures var w, award, isSubtask := Reopened(s, id), s.tasks[id].xpAwarded.value, s.tasks[id].parent.Some?;
            && w.tasks == s.tasks[id := w.tasks[id]] && BackToWork(s.tasks[id], w.tasks[id])
            && w.ledger == s.ledger + [Entry(id, -award, TaskReopened, 1, Revoked(award))]
            && w.delta == Delta(-award, 0, if isSubtask then 0 else -1, if isSubtask then -1 else 0, 0, 0)
  {
  }

  /** Reopening writes one line that takes back the award, counts one
      completion less of the task's present kind, and clears the stamp. */
  lemma ReopenTakesBack(s: State, setup: Setup, id: Id)
    requires Inv(s, setup) && Live(s.tasks, id) && s.tasks[id].status == Completed
    ensures var r, award, isSubtask := Serve(s, setup, DoReopen(id)), s.tasks[id].xpAwarded, s.tasks[id].parent.Some?;
            && r.Ok? && award.Some? && award.value > 0 && id in r.value.tasks
            && r.value.tasks == s.tasks[id := r.value.tasks[id]] && BackToWork(s.tasks[id], r.value.tasks[id])
            && r.value.ledger == s.ledger + [Entry(id, -award.value, TaskReopened, 1, Revoked(award.value))]
            && StatsMoved(s.stats, r.value.stats, -award.value, if isSubtask then 0 else -1, if isSubtask then -1 else 0)
            && r.value.held == s.held && r.value.links == s.links
  {
    ReopenServed(s, setup, id);
    ReopenedIs(s, id);
    SettledStats(s, Reopened(s, id));
  }

  lemma ReopenServed(s: State, setup: Setup, id: Id)
    requires Inv(s, setup) && Live(s.tasks, id) && s.tasks[id].status == Completed
    ensures s.tasks[id].xpAwarded.Some? && s.tasks[id].xpAwarded.value > 0
    ensures Serve(s, setup, DoReopen(id)) == Ok(Settle(s, Reopened(s, id)))
  {
    ReopenKeepsInv(s, setup, id);
    AwardIsPositive(s.tasks, id);
    ServedReopening(s, setup, id);
  }

  lemma AwardIsPositive(tasks: Rows, id: Id)
    requires RowsOK(tasks) && Live(tasks, id) && tasks[id].status == Completed
    ensures tasks[id].xpAwarded.Some? && tasks[id].xpAwarded.value > 0
  {
    PaidPositive(tasks[id]);
  }

  lemma ServedReopening(s: State, setup: Setup, id: Id)
    requires id in s.tasks && ReopenWork(s, id) == Ok(Reopened(s, id))
    ensures Serve(s, setup, DoReopen(id)) == Ok(Settle(s, Reopened(s, id)))
  {
  }

  // ---------- deleting ----------

  /** The line that takes back what a deleted task was paid. */
  function WithdrawnLine(id: Id, award: int): Entry {
    Entry(id, -award, TaskDeleted, 1, Revoked(award))
  }

  /** The completed of these ids. */
  ghost function DoneAmong(tasks: Rows, ids: set<Id>, subtasks: bool): set<Id> {
    set k | k in ids && k in tasks && tasks[k].status == Completed && tasks[k].parent.Some? == subtasks
  }

  /** The lines of a whole deletion, in the order of the rows. */
  function WithdrawnLines(tasks: Rows, ids: seq<Id>): seq<Entry> {
    if |ids| == 0 then [] else WithdrawnLineOf(tasks, ids[0]) + WithdrawnLines(tasks, ids[1..])
  }

  lemma WithdrawOne(w: Work, id: Id)
    requires RowsOK(w.tasks) && id in w.tasks && Numbered(w.ledger)
    ensures var r, t := Withdraw(w, id), w.tasks[id];
            if t.status == Active then r == Ok(w)
            else
              && t.xpAwarded.Some?
              && r == Ok(Work(w.tasks, w.ledger + [WithdrawnLine(id, t.xpAwarded.value)],
                              Paying(w.delta, -t.xpAwarded.value, t.parent.Some?, -1)))
              && Numbered(w.ledger + [WithdrawnLine(id, t.xpAwarded.value)])
  {
    if w.tasks[id].status == Completed {
      PaidPositive(w.tasks[id]);
      RevokeRecords(w.ledger, id, w.tasks[id].xpAwarded.value, TaskDeleted);
    }
  }

  /** Who of them counts as a completed task, and who as a completed subtask. */
  ghost predicate Counted(tasks: Rows, ids: seq<Id>, tops: set<Id>, subs: set<Id>) {
    forall id :: id in ids ==>
      && id in tasks
      && (id in tops <==> tasks[id].status == Completed && tasks[id].parent.None?)
      && (id in subs <==> tasks[id].status == Completed && tasks[id].parent.Some?)
  }

  /** What taking these rows back makes of a transaction in flight. */
  ghost predicate TakenBack(w: Work, r: Work, ids: seq<Id>, tops: set<Id>, subs: set<Id>) {
    && r.tasks == w.tasks && r.ledger == w.ledger + WithdrawnLines(w.tasks, ids)
    && r.delta == w.delta.(xp := w.delta.xp + Total(WithdrawnLines(w.tasks, ids)),
                           tasksCompleted := w.delta.tasksCompleted - CountIn(ids, tops),
                           subtasksCompleted := w.delta.subtasksCompleted - CountIn(ids, subs))
  }

  /** The line of one row, if it was completed. */
  function WithdrawnLineOf(tasks: Rows, id: Id): seq<Entry> {
    if id in tasks && tasks[id].status == Completed then [WithdrawnLine(id, tasks[id].xpAwarded.GetOr(0))] else []
  }

  lemma OneTaken(w: Work, next: Work, id: Id, ids: seq<Id>, tops: set<Id>, subs: set<Id>)
    requires RowsOK(w.tasks) && id in w.tasks && Numbered(w.ledger) && Withdraw(w, id) == Ok(next)
    requires id in ids && Counted(w.tasks, ids, tops, subs)
    ensures next.tasks == w.tasks && Numbered(next.ledger) && next.ledger == w.ledger + WithdrawnLineOf(w.tasks, id)
    ensures next.delta == w.delta.(xp := w.delta.xp + Total(WithdrawnLineOf(w.tasks, id)),
                                   tasksCompleted := w.delta.tasksCompleted - (if id in tops then 1 else 0),
                                   subtasksCompleted := w.delta.subtasksCompleted - (if id in subs then 1 else 0))
  {
    WithdrawOne(w, id);
    TotalOfOne(WithdrawnLineOf(w.tasks, id));
  }

  lemma TotalOfOne(lines: seq<Entry>)
    requires |lines| <= 1
    ensures Total(lines) == if |lines| == 0 then 0 else lines[0].amount
  {
    if |lines| == 1 {
      assert lines[..0] == [];
    }
  }

  lemma OneMoreTaken(w: Work, next: Work, r: Work, ids: seq<Id>, tops: set<Id>, subs: set<Id>)
    requires |ids| > 0 && next.tasks == w.tasks && next.ledger == w.ledger + WithdrawnLineOf(w.tasks, ids[0])
    requires next.delta == w.delta.(xp := w.delta.xp + Total(WithdrawnLineOf(w.tasks, ids[0])),
                                    tasksCompleted := w.delta.tasksCompleted - (if ids[0] in tops then 1 else 0),
                                    subtasksCompleted := w.delta.subtasksCompleted - (if ids[0] in subs then 1 else 0))
    requires TakenBack(next, r, ids[1..], tops, subs)
    ensures TakenBack(w, r, ids, tops, subs)
  {
    TotalJoins(WithdrawnLineOf(w.tasks, ids[0]), WithdrawnLines(w.tasks, ids[1..]));
  }

  lemma {:induction false} WithdrawAllWrites(w: Work, ids: seq<Id>, tops: set<Id>, subs: set<Id>)
    requires RowsOK(w.tasks) && Numbered(w.ledger) && Counted(w.tasks, ids, tops, subs)
    ensures var r := WithdrawAll(w, ids); r.Ok? && TakenBack(w, r.value, ids, tops, subs)
    decreases |ids|
  {
    if |ids| > 0 {
      assert ids[0] in ids;
      WithdrawOne(w, ids[0]);
      var next := Withdraw(w, ids[0]).value;
      OneTaken(w, next, ids[0], ids, tops, subs);
      WithdrawAllWrites(next, ids[1..], tops, subs);
      OneMoreTaken(w, next, WithdrawAll(w, ids).value, ids, tops, subs);
    }
  }

  lemma {:induction false} TotalJoins(a: seq<Entry>, b: seq<Entry>)
    ensures Total(a + b) == Total(a) + Total(b)
  {
    if |b| == 0 {
      assert a + b == a;
    } else {
      var front, last := b[..|b| - 1], b[|b| - 1];
      TotalJoins(a, front);
      assert (a + b)[..|a + b| - 1] == a + front;
    }
  }

  lemma {:induction false} LinesAre(tasks: Rows, ids: seq<Id>, tops: set<Id>, subs: set<Id>)
    requires RowsOK(tasks) && Distinct(ids) && Counted(tasks, ids, tops, subs) && tops !! subs
    ensures var lines := WithdrawnLines(tasks, ids);
            && |lines| == CountIn(ids, tops) + CountIn(ids, subs)
            && (forall e :: e in lines ==> e.task in ids && IsWithdrawal(tasks, e))
            && (forall k :: k in ids && tasks[k].status == Completed ==> exists e :: e in lines && e.task == k)
  {
    if |ids| > 0 {
      var first, rest := ids[0], ids[1..];
      assert first in ids && ids == [first] + rest;
      LinesAre(tasks, rest, tops, subs);
      if tasks[first].status == Completed {
        PaidPositive(tasks[first]);
        assert WithdrawnLine(first, tasks[first].xpAwarded.value) in WithdrawnLines(tasks, ids);
      }
      forall k | k in ids && tasks[k].status == Completed && k != first
        ensures exists e :: e in WithdrawnLines(tasks, ids) && e.task == k
      {
        assert k in rest;
        var e :| e in WithdrawnLines(tasks, rest) && e.task == k;
        assert e in WithdrawnLines(tasks, ids);
      }
    }
  }

  /** A line that takes back exactly what its completed task was paid. */
  ghost predicate IsWithdrawal(tasks: Rows, e: Entry) {
    && e.task in tasks && tasks[e.task].status == Completed && tasks[e.task].xpAwarded.Some?
    && e.amount == -tasks[e.task].xpAwarded.value && e.source == TaskDeleted && e.grantSeq == 1
    && e.metadata == Revoked(tasks[e.task].xpAwarded.value)
  }

  lemma DeleteServed(s: State, setup: Setup, id: Id, now: int)
    requires Inv(s, setup) && Serve(s, setup, DoDelete(id, now)).Ok?
    ensures Live(s.tasks, id) && Doomed(s, id).Ok?
    ensures var ids, r := Doomed(s, id).value, Serve(s, setup, DoDelete(id, now)).value;
            && Distinct(ids) && AllLive(s.tasks, ids) && (forall k :: k in ids <==> k in Family(s.tasks, id))
            && WithdrawAll(Begin(s), ids).Ok?
            && r.stats == ApplyProgress(s.stats, WithdrawAll(Begin(s), ids).value.delta)
            && r.ledger == WithdrawAll(Begin(s), ids).value.ledger
  {
    DoomedIsTheFamily(s, id);
    IdSetHolds(Doomed(s, id).value);
  }

  lemma FamilyCounts(tasks: Rows, family: set<Id>, ids: seq<Id>)
    requires Distinct(ids) && (forall k :: k in ids <==> k in family) && forall k :: k in family ==> k in tasks
    ensures var tops, subs := DoneAmong(tasks, family, false), DoneAmong(tasks, family, true);
            && tops !! subs && Counted(tasks, ids, tops, subs)
            && CountIn(ids, tops) == |tops| && CountIn(ids, subs) == |subs|
  {
    CountInSize(ids, DoneAmong(tasks, family, false));
    CountInSize(ids, DoneAmong(tasks, family, true));
  }

  /** A deletion writes one line for each completed row that goes, taking back
      what it was paid, and counts each with its own kind. */
  lemma DeleteTakesBack(s: State, setup: Setup, id: Id, now: int)
    requires Inv(s, setup) && Serve(s, setup, DoDelete(id, now)).Ok?
    ensures var r, family, written := Serve(s, setup, DoDelete(id, now)).value, Family(s.tasks, id), |s.ledger|;
            var tops, subs := DoneAmong(s.tasks, family, false), DoneAmong(s.tasks, family, true);
            && |r.ledger| == written + |tops| + |subs| && r.ledger[..written] == s.ledger
            && (forall e :: e in r.ledger[written..] ==> e.task in family && IsWithdrawal(s.tasks, e))
            && (forall k :: k in tops + subs ==> exists e :: e in r.ledger[written..] && e.task == k)
            && StatsMoved(s.stats, r.stats, Total(r.ledger) - Total(s.ledger), -|tops|, -|subs|)
  {
    DeleteServed(s, setup, id, now);
    DeletedBooks(s, Doomed(s, id).value, Family(s.tasks, id), Serve(s, setup, DoDelete(id, now)).value);
  }

  lemma DeletedBooks(s: State, ids: seq<Id>, family: set<Id>, r: State)
    requires RowsOK(s.tasks) && Numbered(s.ledger) && s.stats.level == LevelForXP(s.stats.lifetimeXP)
    requires Distinct(ids) && AllLive(s.tasks, ids) && (forall k :: k in ids <==> k in family)
    requires WithdrawAll(Begin(s), ids).Ok? && r.stats == ApplyProgress(s.stats, WithdrawAll(Begin(s), ids).value.delta)
    requires r.ledger == WithdrawAll(Begin(s), ids).value.ledger
    ensures var tops, subs, written := DoneAmong(s.tasks, family, false), DoneAmong(s.tasks, family, true), |s.ledger|;
            && |r.ledger| == written + |tops| + |subs| && r.ledger[..written] == s.ledger
            && (forall e :: e in r.ledger[written..] ==> e.task in family && IsWithdrawal(s.tasks, e))
            && (forall k :: k in tops + subs ==> exists e :: e in r.ledger[written..] && e.task == k)
            && StatsMoved(s.stats, r.stats, Total(r.ledger) - Total(s.ledger), -|tops|, -|subs|)
  {
    var tops, subs := DoneAmong(s.tasks, family, false), DoneAmong(s.tasks, family, true);
    forall k | k in family
      ensures k in s.tasks
    {
      assert k in ids;
    }
    FamilyCounts(s.tasks, family, ids);
    WithdrawAllWrites(Begin(s), ids, tops, subs);
    LinesAre(s.tasks, ids, tops, subs);
    var lines, w := WithdrawnLines(s.tasks, ids), WithdrawAll(Begin(s), ids).value;
    TotalJoins(s.ledger, lines);
    assert r.ledger[|s.ledger|..] == lines && r.ledger[..|s.ledger|] == s.ledger;
    SettledStats(s, w);
  }
}
