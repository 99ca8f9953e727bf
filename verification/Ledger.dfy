/** back/internal/domain/progression/ledger.go and the meaning of
    adapter/postgres/xp_repo.go: an append-only list of XP movements. */
module Ledger {
  import opened Types

  datatype Source = TaskCompleted | SubtaskCompleted | TaskReopened | TaskDeleted

  datatype Metadata = Priced(quadrant: Quadrant, configVersion: int) | Revoked(granted: int)

  datatype Entry = Entry(task: Id, amount: int, source: Source, grantSeq: int, metadata: Metadata)

  function GrantSource(isSubtask: bool): Source {
    if isSubtask then SubtaskCompleted else TaskCompleted
  }

  predicate IsGrant(source: Source) {
    source == TaskCompleted || source == SubtaskCompleted
  }

  function Grant(task: Id, amount: int, isSubtask: bool, quadrant: Quadrant, configVersion: int, grantSeq: int):
    Result<Entry>
  {
    if amount <= 0 || grantSeq < 1 then Err(ValidationFailed)
    else Ok(Entry(task, amount, GrantSource(isSubtask), grantSeq, Priced(quadrant, configVersion)))
  }

  function Revoke(task: Id, granted: int, source: Source): Result<Entry> {
    if granted <= 0 || IsGrant(source) then Err(ValidationFailed)
    else Ok(Entry(task, -granted, source, 1, Revoked(granted)))
  }

  /** GrantCount: how many entries the task has from one source. */
  function Count(ledger: seq<Entry>, task: Id, source: Source): nat {
    if |ledger| == 0 then 0
    else
      var last := ledger[|ledger| - 1];
      Count(ledger[..|ledger| - 1], task, source) + (if last.task == task && last.source == source then 1 else 0)
  }

  /** The unique index xp_transactions_grant_once: (task, source, seq), for grants only. */
  predicate Collides(a: Entry, b: Entry) {
    IsGrant(a.source) && a.task == b.task && a.source == b.source && a.grantSeq == b.grantSeq
  }

  function Record(ledger: seq<Entry>, entry: Entry): Result<seq<Entry>> {
    if exists i :: 0 <= i < |ledger| && Collides(entry, ledger[i]) then Err(XPAlreadyGranted)
    else Ok(ledger + [entry])
  }

  /** What one task's entries add up to. */
  function SumFor(ledger: seq<Entry>, task: Id): int {
    if |ledger| == 0 then 0
    else
      var last := ledger[|ledger| - 1];
      SumFor(ledger[..|ledger| - 1], task) + (if last.task == task then last.amount else 0)
  }

  /** What the whole ledger adds up to. */
  function Total(ledger: seq<Entry>): int {
    if |ledger| == 0 then 0 else Total(ledger[..|ledger| - 1]) + ledger[|ledger| - 1].amount
  }

  ghost predicate NumberedAt(ledger: seq<Entry>, i: nat)
    requires i < |ledger|
  {
    IsGrant(ledger[i].source) ==> ledger[i].grantSeq == Count(ledger[..i], ledger[i].task, ledger[i].source) + 1
  }

  /** The grants of each task and source are numbered 1, 2, 3, ... in order. */
  ghost predicate Numbered(ledger: seq<Entry>) {
    forall i {:trigger NumberedAt(ledger, i)} :: 0 <= i < |ledger| ==> NumberedAt(ledger, i)
  }

  lemma Appended(ledger: seq<Entry>, entry: Entry)
    ensures Total(ledger + [entry]) == Total(ledger) + entry.amount
    ensures forall task ::
      SumFor(ledger + [entry], task) == SumFor(ledger, task) + (if task == entry.task then entry.amount else 0)
    ensures forall task, source ::
      Count(ledger + [entry], task, source)
        == Count(ledger, task, source) + (if task == entry.task && source == entry.source then 1 else 0)
  {
    assert (ledger + [entry])[..|ledger|] == ledger;
  }

  lemma {:induction false} CountGrows(ledger: seq<Entry>, i: nat, task: Id, source: Source)
    requires i <= |ledger|
    ensures Count(ledger[..i], task, source) <= Count(ledger, task, source)
    decreases |ledger| - i
  {
    if i < |ledger| {
      CountGrows(ledger, i + 1, task, source);
      assert ledger[..i + 1][..i] == ledger[..i];
    } else {
      assert ledger[..i] == ledger;
    }
  }

  lemma CountPasses(ledger: seq<Entry>, i: nat)
    requires i < |ledger|
    ensures Count(ledger[..i], ledger[i].task, ledger[i].source) < Count(ledger, ledger[i].task, ledger[i].source)
  {
    CountGrows(ledger, i + 1, ledger[i].task, ledger[i].source);
    assert ledger[..i + 1][..i] == ledger[..i];
  }

  /** Numbered grants never repeat a number: the index that guards against
      paying one completion twice is never what stops an honest one. */
  lemma NumberedNeverCollides(ledger: seq<Entry>, i: nat, j: nat)
    requires Numbered(ledger) && i < j < |ledger|
    ensures !Collides(ledger[i], ledger[j])
  {
    assert ledger[..j][..i] == ledger[..i];
    assert NumberedAt(ledger, i) && NumberedAt(ledger, j);
    if Collides(ledger[i], ledger[j]) {
      CountPasses(ledger[..j], i);
    }
  }

  /** Counting the grants so far always yields a free number. */
  lemma NextGrantIsFree(ledger: seq<Entry>, entry: Entry)
    requires Numbered(ledger) && IsGrant(entry.source)
    requires entry.grantSeq == Count(ledger, entry.task, entry.source) + 1
    ensures Record(ledger, entry) == Ok(ledger + [entry])
    ensures Numbered(ledger + [entry])
  {
    forall i | 0 <= i < |ledger|
      ensures !Collides(entry, ledger[i])
    {
      assert NumberedAt(ledger, i);
      CountPasses(ledger, i);
    }
    NumberedAppend(ledger, entry);
  }

  lemma NumberedAppend(ledger: seq<Entry>, entry: Entry)
    requires Numbered(ledger)
    requires IsGrant(entry.source) ==> entry.grantSeq == Count(ledger, entry.task, entry.source) + 1
    ensures Numbered(ledger + [entry])
  {
    var longer := ledger + [entry];
    forall i | 0 <= i < |longer|
      ensures NumberedAt(longer, i)
    {
      if i < |ledger| {
        assert NumberedAt(ledger, i);
        assert longer[..i] == ledger[..i];
      } else {
        assert longer[..i] == ledger;
      }
    }
  }

  /** No number is skipped either: every number up to the count was handed out. */
  lemma {:induction false} NumberedHasNoGaps(ledger: seq<Entry>, task: Id, source: Source, n: nat)
    requires Numbered(ledger) && IsGrant(source) && 1 <= n <= Count(ledger, task, source)
    ensures exists i ::
      0 <= i < |ledger| && ledger[i].task == task && ledger[i].source == source && ledger[i].grantSeq == n
  {
    var k := |ledger| - 1;
    if ledger[k].task == task && ledger[k].source == source && Count(ledger[..k], task, source) + 1 == n {
      assert NumberedAt(ledger, k);
    } else {
      assert Numbered(ledger[..k]) by {
        forall i | 0 <= i < k
          ensures NumberedAt(ledger[..k], i)
        {
          assert NumberedAt(ledger, i);
          assert ledger[..k][..i] == ledger[..i];
        }
      }
      NumberedHasNoGaps(ledger[..k], task, source, n);
      var i :| 0 <= i < k && ledger[..k][i].task == task && ledger[..k][i].source == source && ledger[..k][i].grantSeq == n;
      assert ledger[i].grantSeq == n;
    }
  }

  // ---------- sums over tasks ----------

  /** The sum of a table of amounts. */
  ghost function SumOver(amounts: map<Id, int>): int
    decreases amounts.Keys
  {
    if amounts == map[] then 0
    else
      var id :| id in amounts;
      amounts[id] + SumOver(amounts - {id})
  }

  lemma {:induction false} SumOverTake(amounts: map<Id, int>, id: Id)
    requires id in amounts
    ensures SumOver(amounts) == amounts[id] + SumOver(amounts - {id})
    decreases amounts.Keys
  {
    var first :| first in amounts && SumOver(amounts) == amounts[first] + SumOver(amounts - {first});
    if first != id {
      SumOverTake(amounts - {first}, id);
      SumOverTake(amounts - {id}, first);
      assert amounts - {first} - {id} == amounts - {id} - {first};
    }
  }

  ghost function TableOf(ledger: seq<Entry>, tasks: set<Id>): map<Id, int> {
    map id | id in tasks :: SumFor(ledger, id)
  }

  /** The ledger's total is the sum, task by task, of what each task's entries add up to. */
  lemma {:induction false} TotalByTask(ledger: seq<Entry>, tasks: set<Id>)
    requires forall i :: 0 <= i < |ledger| ==> ledger[i].task in tasks
    ensures Total(ledger) == SumOver(TableOf(ledger, tasks))
  {
    if |ledger| == 0 {
      ZeroSum(TableOf(ledger, tasks));
    } else {
      var k := |ledger| - 1;
      var entry, front := ledger[k], ledger[..k];
      TotalByTask(front, tasks);
      assert front + [entry] == ledger;
      Appended(front, entry);
      var before, now := TableOf(front, tasks), TableOf(ledger, tasks);
      SumOverTake(before, entry.task);
      SumOverTake(now, entry.task);
      assert before - {entry.task} == now - {entry.task};
    }
  }

  lemma {:induction false} ZeroSum(amounts: map<Id, int>)
    requires forall id :: id in amounts ==> amounts[id] == 0
    ensures SumOver(amounts) == 0
    decreases amounts.Keys
  {
    if amounts != map[] {
      var id :| id in amounts && SumOver(amounts) == amounts[id] + SumOver(amounts - {id});
      ZeroSum(amounts - {id});
    }
  }

  lemma {:induction false} SumNonNegative(amounts: map<Id, int>)
    requires forall id :: id in amounts ==> amounts[id] >= 0
    ensures SumOver(amounts) >= 0
    decreases amounts.Keys
  {
    if amounts != map[] {
      var id :| id in amounts && SumOver(amounts) == amounts[id] + SumOver(amounts - {id});
      SumNonNegative(amounts - {id});
    }
  }
}
