/** back/internal/adapter/redis/cache.go and its cache-aside user,
    back/internal/app/preferences/reader.go: entries filed under a version that
    every invalidation moves on.

    GetInto and Set read the version in one step and touch the entry in another;
    a reader loads from the database in between its Get and its Set, and a
    writer changes the database before it invalidates. Values are told apart by
    how many writes they include. */
module VersionedCache {
  import opened Types

  datatype Key = Key(scope: nat, name: nat)
  datatype Slot = Slot(key: Key, version: nat)

  datatype Event =
    | VersionRead(key: Key, version: nat)
    | Loaded(key: Key, value: nat)
    | Filed(key: Key, version: nat, value: nat, loadAt: nat, readAt: nat)
    | Hit(key: Key, version: nat, value: nat, readAt: nat)
    | Written(scope: nat)
    | Invalidated(scope: nat)

  /** A reader in the middle of Settings; the numbers are times in the log. */
  datatype Phase =
    | Getting(key: Key, version: nat, readAt: nat)
    | Missed(key: Key)
    | Holding(key: Key, value: nat, loadAt: nat)
    | Setting(key: Key, value: nat, loadAt: nat, version: nat, readAt: nat)

  datatype World = World(versions: map<nat, nat>, entries: map<Slot, nat>, rows: map<nat, nat>,
                         readers: map<nat, Phase>, log: seq<Event>)

  datatype Label =
    | StartGet(c: nat, key: Key)
    | EndGet(c: nat)
    | Fail(c: nat)
    | Load(c: nat)
    | StartSet(c: nat)
    | EndSet(c: nat)
    | Write(scope: nat)
    | Invalidate(scope: nat)
    | Expire(slot: Slot)

  function Stored(counters: map<nat, nat>, scope: nat): nat {
    if scope in counters then counters[scope] else 0
  }

  function Bump(counters: map<nat, nat>, scope: nat): map<nat, nat> {
    counters[scope := Stored(counters, scope) + 1]
  }

  /** A reader that cannot take the step does not move. A cache that fails, at
      any point, is a miss or a write that did not happen. */
  function Step(w: World, step: Label): World {
    match step
    case StartGet(c, key) =>
      if c in w.readers then w
      else
        var version := Stored(w.versions, key.scope);
        w.(readers := w.readers[c := Getting(key, version, |w.log|)], log := w.log + [VersionRead(key, version)])
    case EndGet(c) =>
      if c !in w.readers || !w.readers[c].Getting? then w
      else
        var p := w.readers[c];
        if Slot(p.key, p.version) in w.entries then
          w.(readers := w.readers - {c}, log := w.log + [Hit(p.key, p.version, w.entries[Slot(p.key, p.version)], p.readAt)])
        else w.(readers := w.readers[c := Missed(p.key)])
    case Fail(c) =>
      if c !in w.readers then w
      else if w.readers[c].Getting? then w.(readers := w.readers[c := Missed(w.readers[c].key)])
      else w.(readers := w.readers - {c})
    case Load(c) =>
      if c !in w.readers || !w.readers[c].Missed? then w
      else
        var key := w.readers[c].key;
        var value := Stored(w.rows, key.scope);
        w.(readers := w.readers[c := Holding(key, value, |w.log|)], log := w.log + [Loaded(key, value)])
    case StartSet(c) =>
      if c !in w.readers || !w.readers[c].Holding? then w
      else
        var p := w.readers[c];
        var version := Stored(w.versions, p.key.scope);
        w.(readers := w.readers[c := Setting(p.key, p.value, p.loadAt, version, |w.log|)],
           log := w.log + [VersionRead(p.key, version)])
    case EndSet(c) =>
      if c !in w.readers || !w.readers[c].Setting? then w
      else
        var p := w.readers[c];
        w.(readers := w.readers - {c}, entries := w.entries[Slot(p.key, p.version) := p.value],
           log := w.log + [Filed(p.key, p.version, p.value, p.loadAt, p.readAt)])
    case Write(scope) => w.(rows := Bump(w.rows, scope), log := w.log + [Written(scope)])
    case Invalidate(scope) => w.(versions := Bump(w.versions, scope), log := w.log + [Invalidated(scope)])
    case Expire(slot) => w.(entries := w.entries - {slot})
  }

  const EMPTY := World(map[], map[], map[], map[], [])

  function Run(steps: seq<Label>): World {
    if |steps| == 0 then EMPTY else Step(Run(steps[..|steps| - 1]), steps[|steps| - 1])
  }

  // ---------- counting ----------

  function Count(log: seq<Event>, e: Event): nat {
    if |log| == 0 then 0 else Count(log[..|log| - 1], e) + (if log[|log| - 1] == e then 1 else 0)
  }

  /** When the entry now in a slot was filed, or None. */
  function LastFiled(log: seq<Event>, slot: Slot): Option<nat> {
    if |log| == 0 then None
    else
      var e := log[|log| - 1];
      if e.Filed? && Slot(e.key, e.version) == slot then Some(|log| - 1) else LastFiled(log[..|log| - 1], slot)
  }

  lemma {:induction false} LastFiledIs(log: seq<Event>, slot: Slot)
    ensures var s := LastFiled(log, slot);
            s.Some? ==>
              && s.value < |log| && log[s.value].Filed? && Slot(log[s.value].key, log[s.value].version) == slot
              && (forall i :: s.value < i < |log| && log[i].Filed? ==> Slot(log[i].key, log[i].version) != slot)
  {
    if |log| > 0 {
      LastFiledIs(log[..|log| - 1], slot);
    }
  }

  lemma {:induction false} CountGrows(log: seq<Event>, i: nat, j: nat, e: Event)
    requires i <= j <= |log|
    ensures Count(log[..i], e) <= Count(log[..j], e)
    ensures (exists k :: i <= k < j && log[k] == e) ==> Count(log[..i], e) < Count(log[..j], e)
    decreases j
  {
    if i < j {
      assert log[..j][..j - 1] == log[..j - 1];
      CountGrows(log, i, j - 1, e);
    }
  }

  // ---------- the invariant ----------

  ghost predicate EventOK(log: seq<Event>, i: nat)
    requires i < |log|
  {
    match log[i]
    case Filed(key, version, value, loadAt, readAt) =>
      && loadAt < readAt < i
      && value == Count(log[..loadAt], Written(key.scope)) && version == Count(log[..readAt], Invalidated(key.scope))
    case Hit(key, version, value, readAt) =>
      && readAt < i && version == Count(log[..readAt], Invalidated(key.scope))
      && var s := LastFiled(log[..i], Slot(key, version));
         s.Some? && s.value < i && log[s.value].Filed? && log[s.value].value == value
    case _ => true
  }

  ghost predicate PhaseOK(w: World, c: nat)
    requires c in w.readers
  {
    match w.readers[c]
    case Getting(key, version, readAt) =>
      readAt < |w.log| && version == Count(w.log[..readAt], Invalidated(key.scope))
    case Missed(_) => true
    case Holding(key, value, loadAt) =>
      loadAt < |w.log| && value == Count(w.log[..loadAt], Written(key.scope))
    case Setting(key, value, loadAt, version, readAt) =>
      && loadAt < readAt < |w.log|
      && value == Count(w.log[..loadAt], Written(key.scope)) && version == Count(w.log[..readAt], Invalidated(key.scope))
  }

  ghost predicate EntryOK(w: World, slot: Slot)
    requires slot in w.entries
  {
    var s := LastFiled(w.log, slot);
    s.Some? && s.value < |w.log| && w.log[s.value].Filed? && w.log[s.value].value == w.entries[slot]
  }

  ghost predicate LogOK(log: seq<Event>) {
    forall i {:trigger EventOK(log, i)} :: 0 <= i < |log| ==> EventOK(log, i)
  }

  ghost predicate CountersOK(w: World, scope: nat) {
    Stored(w.versions, scope) == Count(w.log, Invalidated(scope)) && Stored(w.rows, scope) == Count(w.log, Written(scope))
  }

  ghost predicate Inv(w: World) {
    && LogOK(w.log)
    && (forall scope {:trigger CountersOK(w, scope)} :: CountersOK(w, scope))
    && (forall c :: c in w.readers ==> PhaseOK(w, c))
    && (forall slot :: slot in w.entries ==> EntryOK(w, slot))
  }

  lemma Grown(log: seq<Event>, e: Event)
    ensures (log + [e])[..|log|] == log
    ensures forall i {:trigger log[..i]} :: 0 <= i <= |log| ==> (log + [e])[..i] == log[..i]
    ensures forall d :: Count(log + [e], d) == Count(log, d) + (if e == d then 1 else 0)
    ensures forall slot :: LastFiled(log + [e], slot)
                           == if e.Filed? && Slot(e.key, e.version) == slot then Some(|log|) else LastFiled(log, slot)
  {
    assert (log + [e])[..|log|] == log;
  }

  lemma LogGrows(log: seq<Event>, e: Event)
    requires LogOK(log) && EventOK(log + [e], |log|)
    ensures LogOK(log + [e])
  {
    forall i | 0 <= i < |log|
      ensures EventOK(log + [e], i)
    {
      assert EventOK(log, i);
      PrefixKept(log, e, i);
      match log[i]
      case Filed(_, _, _, loadAt, readAt) =>
        PrefixKept(log, e, loadAt);
        PrefixKept(log, e, readAt);
      case Hit(_, _, _, readAt) => PrefixKept(log, e, readAt);
      case _ =>
    }
  }

  lemma PrefixKept(log: seq<Event>, e: Event, i: nat)
    requires i <= |log|
    ensures (log + [e])[..i] == log[..i]
  {
  }

  /** One event longer, and at most one reader and one entry changed. */
  lemma Keeps(w: World, after: World, e: Event)
    requires Inv(w) && after.log == w.log + [e] && EventOK(after.log, |w.log|)
    requires forall scope {:trigger CountersOK(after, scope)} :: CountersOK(after, scope)
    requires forall c :: c in after.readers ==> (c in w.readers && after.readers[c] == w.readers[c]) || PhaseOK(after, c)
    requires forall slot :: slot in after.entries ==> EntryOK(after, slot)
    ensures Inv(after)
  {
    LogGrows(w.log, e);
    forall c | c in after.readers
      ensures PhaseOK(after, c)
    {
      if c in w.readers && after.readers[c] == w.readers[c] {
        PhaseStays(w, after, e, c);
      }
    }
  }

  lemma PhaseStays(w: World, after: World, e: Event, c: nat)
    requires c in w.readers && PhaseOK(w, c) && after.log == w.log + [e]
    requires c in after.readers && after.readers[c] == w.readers[c]
    ensures PhaseOK(after, c)
  {
    match w.readers[c]
    case Getting(_, _, readAt) => PrefixKept(w.log, e, readAt);
    case Missed(_) =>
    case Holding(_, _, loadAt) => PrefixKept(w.log, e, loadAt);
    case Setting(_, _, loadAt, _, readAt) =>
      PrefixKept(w.log, e, loadAt);
      PrefixKept(w.log, e, readAt);
  }

  lemma CountersStay(w: World, after: World, e: Event)
    requires Inv(w) && after.log == w.log + [e]
    requires after.versions == (if e.Invalidated? then Bump(w.versions, e.scope) else w.versions)
    requires after.rows == (if e.Written? then Bump(w.rows, e.scope) else w.rows)
    ensures forall scope {:trigger CountersOK(after, scope)} :: CountersOK(after, scope)
  {
    Grown(w.log, e);
    forall scope
      ensures CountersOK(after, scope)
    {
      assert CountersOK(w, scope);
    }
  }

  lemma SilentStepKeeps(w: World, after: World)
    requires Inv(w) && after.log == w.log && after.versions == w.versions && after.rows == w.rows
    requires forall c :: c in after.readers ==> after.readers[c].Missed? || (c in w.readers && after.readers[c] == w.readers[c])
    requires after.entries.Keys <= w.entries.Keys && forall slot :: slot in after.entries ==> after.entries[slot] == w.entries[slot]
    ensures Inv(after)
  {
    forall scope
      ensures CountersOK(after, scope)
    {
      assert CountersOK(w, scope);
    }
    forall c | c in after.readers
      ensures PhaseOK(after, c)
    {
      assert c in w.readers ==> PhaseOK(w, c);
    }
    forall slot | slot in after.entries
      ensures EntryOK(after, slot)
    {
      assert EntryOK(w, slot);
    }
  }

  lemma LoudStepKeeps(w: World, step: Label)
    requires Inv(w) && |Step(w, step).log| > |w.log|
    ensures Inv(Step(w, step))
  {
    var after := Step(w, step);
    StepLogs(w, step);
    CountersStay(w, after, after.log[|w.log|]);
    StepEvent(w, step);
    StepReader(w, step);
    StepEntries(w, step);
    Keeps(w, after, after.log[|w.log|]);
  }

  lemma StepLogs(w: World, step: Label)
    requires |Step(w, step).log| > |w.log|
    ensures var after := Step(w, step);
            var e := after.log[|w.log|];
            && after.log == w.log + [e]
            && after.versions == (if e.Invalidated? then Bump(w.versions, e.scope) else w.versions)
            && after.rows == (if e.Written? then Bump(w.rows, e.scope) else w.rows)
  {
  }

  lemma StepKeeps(w: World, step: Label)
    requires Inv(w)
    ensures Inv(Step(w, step))
  {
    if |Step(w, step).log| > |w.log| {
      LoudStepKeeps(w, step);
    } else {
      SilentStep(w, step);
      SilentStepKeeps(w, Step(w, step));
    }
  }

  lemma SilentStep(w: World, step: Label)
    requires |Step(w, step).log| <= |w.log|
    ensures var after := Step(w, step);
            && after.log == w.log && after.versions == w.versions && after.rows == w.rows
            && (forall c :: c in after.readers ==> after.readers[c].Missed? || (c in w.readers && after.readers[c] == w.readers[c]))
            && after.entries.Keys <= w.entries.Keys && (forall slot :: slot in after.entries ==> after.entries[slot] == w.entries[slot])
  {
  }

  lemma StepReader(w: World, step: Label)
    requires Inv(w) && |Step(w, step).log| > |w.log|
    ensures var after := Step(w, step);
            forall c :: c in after.readers ==> (c in w.readers && after.readers[c] == w.readers[c]) || PhaseOK(after, c)
  {
    if step.StartGet? || step.Load? || step.StartSet? {
      var e := Step(w, step).log[|w.log|];
      assert CountersOK(w, Step(w, step).readers[step.c].key.scope);
      assert step.c in w.readers ==> PhaseOK(w, step.c);
      PrefixKept(w.log, e, |w.log|);
      if step.StartSet? {
        PrefixKept(w.log, e, w.readers[step.c].loadAt);
      }
    }
  }

  lemma StepEntries(w: World, step: Label)
    requires Inv(w) && |Step(w, step).log| > |w.log|
    ensures var after := Step(w, step); forall slot :: slot in after.entries ==> EntryOK(after, slot)
  {
    var after := Step(w, step);
    StepLogs(w, step);
    Grown(w.log, after.log[|w.log|]);
    forall slot | slot in after.entries
      ensures EntryOK(after, slot)
    {
      assert slot in w.entries ==> EntryOK(w, slot);
    }
  }

  lemma StepEvent(w: World, step: Label)
    requires Inv(w) && |Step(w, step).log| > |w.log|
    ensures EventOK(Step(w, step).log, |w.log|)
  {
    var after := Step(w, step);
    Grown(w.log, after.log[|w.log|]);
    match step
    case EndGet(c) =>
      assert PhaseOK(w, c);
      var p := w.readers[c];
      assert EntryOK(w, Slot(p.key, p.version));
      PrefixKept(w.log, after.log[|w.log|], p.readAt);
    case EndSet(c) =>
      assert PhaseOK(w, c);
      PrefixKept(w.log, after.log[|w.log|], w.readers[c].loadAt);
      PrefixKept(w.log, after.log[|w.log|], w.readers[c].readAt);
    case _ =>
  }

  lemma {:induction false} EveryRunKeepsInv(steps: seq<Label>)
    ensures Inv(Run(steps))
  {
    if |steps| > 0 {
      EveryRunKeepsInv(steps[..|steps| - 1]);
      StepKeeps(Run(steps[..|steps| - 1]), steps[|steps| - 1]);
    }
  }

  // ---------- what a hit is worth ----------

  /** The Set a hit came from: the last one filed in its slot. */
  ghost predicate FiledBy(log: seq<Event>, hit: nat, s: nat) {
    && s < hit < |log| && log[hit].Hit? && log[s].Filed?
    && log[s].key == log[hit].key && log[s].version == log[hit].version && log[s].value == log[hit].value
    && (forall i :: s < i < hit && log[i].Filed? && log[i].key == log[hit].key ==> log[i].version != log[hit].version)
  }

  /** Every hit came from a Set, and that Set read the version after every
      invalidation that came before the hit's own version read. */
  lemma HitsOutliveNoInvalidation(steps: seq<Label>, hit: nat)
    requires hit < |Run(steps).log| && Run(steps).log[hit].Hit?
    ensures var log := Run(steps).log;
            exists s: nat :: FiledBy(log, hit, s)
              && (forall r :: 0 <= r < log[hit].readAt && r < |log| && log[r] == Invalidated(log[hit].key.scope) ==> r < log[s].readAt)
  {
    EveryRunKeepsInv(steps);
    HitOutlives(Run(steps).log, hit);
  }

  lemma HitOutlives(log: seq<Event>, hit: nat)
    requires LogOK(log) && hit < |log| && log[hit].Hit?
    ensures exists s: nat :: FiledBy(log, hit, s)
              && (forall r :: 0 <= r < log[hit].readAt && r < |log| && log[r] == Invalidated(log[hit].key.scope) ==> r < log[s].readAt)
  {
    assert EventOK(log, hit);
    var slot := Slot(log[hit].key, log[hit].version);
    LastFiledIs(log[..hit], slot);
    var s := LastFiled(log[..hit], slot).value;
    assert FiledBy(log, hit, s);
    assert EventOK(log, s);
    forall r | 0 <= r < log[hit].readAt && log[r] == Invalidated(log[hit].key.scope)
      ensures r < log[s].readAt
    {
      if r >= log[s].readAt {
        CountGrows(log, log[s].readAt, log[hit].readAt, log[r]);
      }
    }
  }

  lemma StepRaisesVersions(w: World, step: Label, scope: nat)
    ensures Stored(w.versions, scope) <= Stored(Step(w, step).versions, scope)
  {
  }

  /** The version a scope is read at never goes back. */
  lemma {:induction false} VersionsNeverDecrease(steps: seq<Label>, more: seq<Label>, scope: nat)
    ensures Stored(Run(steps).versions, scope) <= Stored(Run(steps + more).versions, scope)
    decreases |more|
  {
    if |more| == 0 {
      assert steps + more == steps;
    } else {
      var fewer, last := more[..|more| - 1], more[|more| - 1];
      VersionsNeverDecrease(steps, fewer, scope);
      RunsOn(steps + fewer, last);
      assert steps + more == steps + fewer + [last];
      StepRaisesVersions(Run(steps + fewer), last, scope);
    }
  }

  /** A hit that began after an invalidation of its scope, itself after a write. */
  ghost predicate HitAfter(log: seq<Event>, hit: nat, write: nat, revoke: nat) {
    && hit < |log| && log[hit].Hit? && write < revoke < log[hit].readAt < |log|
    && log[write] == Written(log[hit].key.scope) && log[revoke] == Invalidated(log[hit].key.scope)
  }

  /** ... and does not include that write. */
  ghost predicate Stale(log: seq<Event>, hit: nat, write: nat)
    requires hit < |log| && log[hit].Hit? && write < |log|
  {
    log[hit].value < Count(log[..write + 1], Written(log[hit].key.scope))
  }

  /** How fresh a hit is: it includes exactly the writes made before its filer
      loaded the row. So a hit that begins after an invalidation misses the
      write that was invalidated exactly when the filer had loaded before the
      write. Only that decides: that the filer read the version, to file it,
      after the invalidation is true of every such hit (HitsOutliveNoInvalidation). */
  lemma StaleExactlyWhen(steps: seq<Label>, hit: nat, s: nat, write: nat, revoke: nat)
    requires FiledBy(Run(steps).log, hit, s) && HitAfter(Run(steps).log, hit, write, revoke)
    ensures var log := Run(steps).log;
            && (Stale(log, hit, write) <==> log[s].loadAt <= write)
            && revoke < log[s].readAt
  {
    EveryRunKeepsInv(steps);
    StaleInLog(Run(steps).log, hit, s, write, revoke);
  }

  lemma StaleInLog(log: seq<Event>, hit: nat, s: nat, write: nat, revoke: nat)
    requires LogOK(log) && FiledBy(log, hit, s) && HitAfter(log, hit, write, revoke)
    ensures Stale(log, hit, write) <==> log[s].loadAt <= write
    ensures revoke < log[s].readAt
  {
    assert EventOK(log, s) && EventOK(log, hit);
    var e, load := Written(log[hit].key.scope), log[s].loadAt;
    if log[s].readAt <= revoke {
      CountGrows(log, log[s].readAt, log[hit].readAt, log[revoke]);
    }
    if load <= write {
      CountGrows(log, load, write + 1, e);
    } else {
      CountGrows(log, write + 1, load, e);
    }
  }

  /** back/README.md:244-247 calls a stale read structurally impossible. It is
      not: here a value loaded before a write is filed after the invalidation
      that followed the write, and a reader that begins later still gets it. */
  lemma StaleReadIsPossible()
    ensures exists steps, hit, write, revoke ::
              HitAfter(Run(steps).log, hit, write, revoke) && Stale(Run(steps).log, hit, write)
  {
    var steps := StaleSteps();
    var log := Run(steps).log;
    CountGrows(log, 2, 3, Written(0));
    assert HitAfter(log, 7, 2, 3) && Stale(log, 7, 2);
  }

  lemma StaleSteps() returns (steps: seq<Label>)
    ensures var key := Key(0, 0);
            Run(steps).log == [VersionRead(key, 0), Loaded(key, 0), Written(0), Invalidated(0), VersionRead(key, 1),
                               Filed(key, 1, 0, 1, 4), VersionRead(key, 1), Hit(key, 1, 0, 6)]
  {
    var key := Key(0, 0);
    var loaded := [StartGet(0, key), EndGet(0), Load(0)];
    LoadsFirst(key, loaded);
    FilesLate(key, Run(loaded));
    RunsOn(loaded, Write(0));
    var retired := loaded + [Write(0)] + [Invalidate(0)];
    RunsOn(loaded + [Write(0)], Invalidate(0));
    RunsOn(retired, StartSet(0));
    var filed := retired + [StartSet(0)] + [EndSet(0)];
    RunsOn(retired + [StartSet(0)], EndSet(0));
    RunsOn(filed, StartGet(1, key));
    RunsOn(filed + [StartGet(1, key)], EndGet(1));
    steps := filed + [StartGet(1, key)] + [EndGet(1)];
  }

  lemma LoadsFirst(key: Key, steps: seq<Label>)
    requires steps == [StartGet(0, key), EndGet(0), Load(0)]
    ensures Run(steps) == World(map[], map[], map[], map[0 := Holding(key, 0, 1)], [VersionRead(key, 0), Loaded(key, 0)])
  {
    var one, two := [StartGet(0, key)], [StartGet(0, key), EndGet(0)];
    RunsOn([], StartGet(0, key));
    assert [] + [StartGet(0, key)] == one;
    RunsOn(one, EndGet(0));
    assert one + [EndGet(0)] == two;
    RunsOn(two, Load(0));
    assert two + [Load(0)] == steps;
  }

  /** The row is written and its scope invalidated; only then is the value filed. */
  lemma FilesLate(key: Key, w: World)
    requires key.scope == 0
    requires w == World(map[], map[], map[], map[0 := Holding(key, 0, 1)], [VersionRead(key, 0), Loaded(key, 0)])
    ensures var filed := Step(Step(Step(Step(w, Write(0)), Invalidate(0)), StartSet(0)), EndSet(0));
            Step(Step(filed, StartGet(1, key)), EndGet(1)).log
            == [VersionRead(key, 0), Loaded(key, 0), Written(0), Invalidated(0), VersionRead(key, 1),
                Filed(key, 1, 0, 1, 4), VersionRead(key, 1), Hit(key, 1, 0, 6)]
  {
  }

  lemma RunsOn(steps: seq<Label>, step: Label)
    ensures Run(steps + [step]) == Step(Run(steps), step)
  {
    assert (steps + [step])[..|steps|] == steps;
  }

  // ---------- the cache as an object ----------

  class Cache {
    var versions: map<nat, nat>
    var entries: map<Slot, nat>

    /** Nothing is ever filed under a version to come. */
    ghost predicate Valid()
      reads this
    {
      forall slot :: slot in entries ==> slot.version <= Stored(versions, slot.key.scope)
    }

    /** What a reader would be given. */
    function Current(key: Key): Option<nat>
      reads this
    {
      var slot := Slot(key, Stored(versions, key.scope));
      if slot in entries then Some(entries[slot]) else None
    }

    constructor ()
      ensures Valid() && forall key :: Current(key) == None
    {
      versions, entries := map[], map[];
    }

    method GetInto(key: Key) returns (hit: Option<nat>)
      ensures hit == Current(key)
    {
      var version := Stored(versions, key.scope);
      if Slot(key, version) !in entries {
        return None;
      }
      return Some(entries[Slot(key, version)]);
    }

    method Set(key: Key, value: nat)
      requires Valid()
      modifies this
      ensures Valid() && Current(key) == Some(value)
      ensures forall other :: other != key ==> Current(other) == old(Current(other))
    {
      var version := Stored(versions, key.scope);
      entries := entries[Slot(key, version) := value];
    }

    /** One increment retires a whole scope, and nothing else. */
    method Invalidate(scope: nat)
      requires Valid()
      modifies this
      ensures Valid()
      ensures forall key :: Current(key) == if key.scope == scope then None else old(Current(key))
    {
      versions := Bump(versions, scope);
    }

    /** Settings: what the cache has, or the row, which it then has. */
    method Settings(key: Key, row: nat) returns (value: nat)
      requires Valid()
      modifies this
      ensures Valid() && value == old(Current(key)).GetOr(row) && Current(key) == Some(value)
      ensures forall other :: other != key ==> Current(other) == old(Current(other))
    {
      var hit := GetInto(key);
      if hit.Some? {
        return hit.value;
      }
      Set(key, row);
      return row;
    }
  }
}
