/** TouchStreak of back/internal/adapter/postgres/user_repo.go against the
    calendar it summarises, and the day gate of
    back/internal/app/profile/service.go in front of it. A day is the user's
    own calendar day, as a number. */
module Streak {
  import opened Types

  datatype Standing = Standing(current: nat, longest: nat, last: Option<int>)

  const NEVER_SEEN := Standing(0, 0, None)

  function Touched(s: Standing, day: int): Standing {
    if s.last == Some(day) then s
    else
      var current := if s.last == Some(day - 1) then s.current + 1 else 1;
      Standing(current, if current > s.longest then current else s.longest, Some(day))
  }

  function TouchAll(days: seq<int>): Standing {
    if |days| == 0 then NEVER_SEEN else Touched(TouchAll(days[..|days| - 1]), days[|days| - 1])
  }

  // ---------- the calendar ----------

  ghost predicate NonDecreasing(days: seq<int>) {
    forall i, j :: 0 <= i <= j < |days| ==> days[i] <= days[j]
  }

  ghost function Visited(days: seq<int>): set<int> {
    set d | d in days
  }

  /** k days in a row were visited, the last of them `day`. */
  ghost predicate Stretch(visited: set<int>, day: int, k: nat) {
    forall d :: day - k < d <= day ==> d in visited
  }

  /** The stretch ending at `day` is k days long and no longer. */
  ghost predicate Ends(visited: set<int>, day: int, k: nat) {
    Stretch(visited, day, k) && day - k !in visited
  }

  ghost predicate SomeStretch(visited: set<int>, k: nat) {
    exists day :: Stretch(visited, day, k)
  }

  /** What the row says is what counting days in the calendar gives. */
  ghost predicate Summarises(s: Standing, visited: set<int>) {
    && (s.last.None? ==> visited == {} && s == NEVER_SEEN)
    && (s.last.Some? ==>
          && s.last.value in visited && (forall d :: d in visited ==> d <= s.last.value)
          && Ends(visited, s.last.value, s.current))
    && SomeStretch(visited, s.longest)
    && (forall day, k: nat :: Stretch(visited, day, k) ==> k <= s.longest)
  }

  /** A stretch of the calendar with one more, last, day in it either was there
      before or ends at that day. */
  lemma StretchWith(visited: set<int>, day: int, at: int, k: nat)
    requires forall d :: d in visited ==> d < day
    requires Stretch(visited + {day}, at, k) && k > 0
    ensures at <= day
    ensures at < day ==> Stretch(visited, at, k)
    ensures at == day ==> Stretch(visited, day - 1, k - 1)
  {
    assert at in visited + {day};
    if at < day {
      forall d | at - k < d <= at
        ensures d in visited
      {
        assert d in visited + {day};
      }
    } else {
      forall d | day - k < d <= day - 1
        ensures d in visited
      {
        assert d in visited + {day};
      }
    }
  }

  /** Only one length fits. */
  lemma EndsOnce(visited: set<int>, day: int, j: nat, k: nat)
    requires Ends(visited, day, j) && Stretch(visited, day, k)
    ensures k <= j
  {
    assert k > j ==> day - j in visited;
  }

  lemma NextDayEnds(s: Standing, visited: set<int>, day: int)
    requires Summarises(s, visited) && (s.last.Some? ==> s.last.value < day)
    ensures Ends(visited + {day}, day, Touched(s, day).current)
  {
    var after, k := visited + {day}, Touched(s, day).current;
    if s.last == Some(day - 1) {
      forall d | day - k < d <= day
        ensures d in after
      {
        assert d != day ==> (day - 1) - s.current < d <= day - 1;
      }
    }
  }

  lemma NextDayLongest(s: Standing, visited: set<int>, day: int, at: int, k: nat)
    requires Summarises(s, visited) && (s.last.Some? ==> s.last.value < day)
    requires Stretch(visited + {day}, at, k)
    ensures k <= Touched(s, day).longest
  {
    if k > 0 {
      StretchWith(visited, day, at, k);
      if at == day {
        NextDayEnds(s, visited, day);
        EndsOnce(visited + {day}, day, Touched(s, day).current, k);
      }
    }
  }

  lemma NextDay(s: Standing, visited: set<int>, day: int)
    requires Summarises(s, visited) && (s.last.Some? ==> s.last.value < day)
    ensures Summarises(Touched(s, day), visited + {day})
  {
    var after := visited + {day};
    NextDayEnds(s, visited, day);
    forall at, k: nat | Stretch(after, at, k)
      ensures k <= Touched(s, day).longest
    {
      NextDayLongest(s, visited, day, at, k);
    }
    if Touched(s, day).longest == s.longest {
      var at :| Stretch(visited, at, s.longest);
      assert Stretch(after, at, s.longest);
    }
  }

  lemma NobodySeen(days: seq<int>)
    requires |days| == 0
    ensures Summarises(TouchAll(days), Visited(days))
  {
    assert Stretch(Visited(days), 0, 0);
    forall day, k: nat | Stretch(Visited(days), day, k)
      ensures k == 0
    {
      assert k > 0 ==> day in Visited(days);
    }
  }

  /** A later visit is on the last day there was, or after every day there was. */
  lemma NextVisit(earlier: seq<int>, day: int)
    requires NonDecreasing(earlier + [day]) && Summarises(TouchAll(earlier), Visited(earlier))
    ensures Summarises(Touched(TouchAll(earlier), day), Visited(earlier) + {day})
  {
    var s, days := TouchAll(earlier), earlier + [day];
    if s.last.Some? {
      var i :| 0 <= i < |earlier| && earlier[i] == s.last.value;
      assert days[i] <= days[|earlier|];
    }
    if s.last == Some(day) {
      assert Visited(earlier) + {day} == Visited(earlier);
    } else {
      NextDay(s, Visited(earlier), day);
    }
  }

  /** For visits in order of time, the incremental streak is the brute-force
      one: current is the run of days that ends at the last visit, longest the
      longest run there is. */
  lemma {:induction false} StreakIsTheRun(days: seq<int>)
    requires NonDecreasing(days)
    ensures Summarises(TouchAll(days), Visited(days))
  {
    if |days| == 0 {
      NobodySeen(days);
    } else {
      var earlier, day := days[..|days| - 1], days[|days| - 1];
      StreakIsTheRun(earlier);
      assert days == earlier + [day];
      assert Visited(days) == Visited(earlier) + {day};
      NextVisit(earlier, day);
    }
  }

  /** Out of order the row forgets: a day before the last one starts a new run. */
  lemma OrderIsNeeded()
    ensures TouchAll([1, 2, 1]).current == 1 && Ends(Visited([1, 2, 1]), 2, 2)
  {
    assert [1, 2, 1][..2] == [1, 2] && [1, 2][..1] == [1];
    assert TouchAll([1]) == Standing(1, 1, Some(1));
    assert TouchAll([1, 2]) == Standing(2, 2, Some(2));
    assert 0 !in Visited([1, 2, 1]);
  }

  // ---------- the gate ----------

  /** What happens between the database and its gate, cache entries being lost at any time. */
  datatype Happening = Visit(day: int) | Lose(days: set<int>)

  datatype Gated = Gated(row: Standing, counted: set<int>)

  function Pass(g: Gated, h: Happening): Gated {
    match h
    case Visit(day) => if day in g.counted then g else Gated(Touched(g.row, day), g.counted + {day})
    case Lose(days) => g.(counted := g.counted - days)
  }

  function PassAll(hs: seq<Happening>): Gated {
    if |hs| == 0 then Gated(NEVER_SEEN, {}) else Pass(PassAll(hs[..|hs| - 1]), hs[|hs| - 1])
  }

  function Days(hs: seq<Happening>): seq<int> {
    if |hs| == 0 then []
    else Days(hs[..|hs| - 1]) + (if hs[|hs| - 1].Visit? then [hs[|hs| - 1].day] else [])
  }

  lemma {:induction false} LastDay(days: seq<int>)
    ensures TouchAll(days).last == if |days| == 0 then None else Some(days[|days| - 1])
  {
  }

  lemma EarlierDays(hs: seq<Happening>)
    requires |hs| > 0 && NonDecreasing(Days(hs))
    ensures NonDecreasing(Days(hs[..|hs| - 1]))
  {
    var earlier := Days(hs[..|hs| - 1]);
    forall i, j | 0 <= i <= j < |earlier|
      ensures earlier[i] <= earlier[j]
    {
      assert Days(hs)[i] <= Days(hs)[j];
    }
  }

  /** A visit whose day the gate remembers is a visit on the last day. */
  lemma RememberedIsLast(days: seq<int>, day: int)
    requires NonDecreasing(days + [day]) && day in days
    ensures TouchAll(days).last == Some(day)
  {
    LastDay(days);
    var i :| 0 <= i < |days| && days[i] == day;
    var all := days + [day];
    assert all[i] <= all[|days| - 1] <= all[|days|];
  }

  /** The gate only ever stops visits that would have changed nothing: with any
      entries lost at any time, the row is the one that every visit touched. */
  lemma {:induction false} GateChangesNothing(hs: seq<Happening>)
    requires NonDecreasing(Days(hs))
    ensures PassAll(hs).row == TouchAll(Days(hs))
    ensures forall d :: d in PassAll(hs).counted ==> d in Days(hs)
  {
    if |hs| > 0 {
      var earlier, h := hs[..|hs| - 1], hs[|hs| - 1];
      EarlierDays(hs);
      GateChangesNothing(earlier);
      if h.Visit? {
        var days := Days(earlier);
        assert (days + [h.day])[..|days|] == days;
        if h.day in PassAll(earlier).counted {
          RememberedIsLast(days, h.day);
        }
      } else {
        assert Days(hs) == Days(earlier);
      }
    }
  }

  /** The day was visited and its entry not lost since. */
  ghost predicate StillKnown(hs: seq<Happening>, day: int) {
    exists i :: 0 <= i < |hs| && hs[i] == Visit(day) && forall j :: i < j < |hs| && hs[j].Lose? ==> day !in hs[j].days
  }

  lemma StillKnownGrows(hs: seq<Happening>, h: Happening, day: int)
    ensures StillKnown(hs + [h], day) <==> h == Visit(day) || (StillKnown(hs, day) && (h.Lose? ==> day !in h.days))
  {
    var longer := hs + [h];
    assert longer[|hs|] == h;
    if StillKnown(hs, day) && (h.Lose? ==> day !in h.days) {
      var i :| 0 <= i < |hs| && hs[i] == Visit(day) && forall j :: i < j < |hs| && hs[j].Lose? ==> day !in hs[j].days;
      assert longer[i] == hs[i];
    }
    if StillKnown(longer, day) && h != Visit(day) {
      var i :| 0 <= i < |longer| && longer[i] == Visit(day)
               && forall j :: i < j < |longer| && longer[j].Lose? ==> day !in longer[j].days;
      assert hs[i] == Visit(day);
      forall j | i < j < |hs| && hs[j].Lose?
        ensures day !in hs[j].days
      {
        assert longer[j] == hs[j];
      }
    }
  }

  /** The gate stops exactly the days it was shown and has not lost since. */
  lemma {:induction false} GateRemembers(hs: seq<Happening>, day: int)
    ensures day in PassAll(hs).counted <==> StillKnown(hs, day)
  {
    if |hs| > 0 {
      var earlier, h := hs[..|hs| - 1], hs[|hs| - 1];
      GateRemembers(earlier, day);
      assert hs == earlier + [h];
      StillKnownGrows(earlier, h, day);
    }
  }

  // ---------- the row and the gate as objects ----------

  class Profile {
    var current: nat
    var longest: nat
    var last: Option<int>
    var counted: set<int>

    function Row(): Standing
      reads this
    {
      Standing(current, longest, last)
    }

    constructor ()
      ensures Row() == NEVER_SEEN && counted == {}
    {
      current, longest, last, counted := 0, 0, None, {};
    }

    /** One statement: it finds the row unless the day is already there. */
    method TouchStreak(day: int) returns (extended: bool)
      modifies this`current, this`longest, this`last
      ensures Row() == Touched(old(Row()), day)
      ensures extended <==> Row() != old(Row())
    {
      if last == Some(day) {
        return false;
      }
      if last == Some(day - 1) {
        current := current + 1;
      } else {
        current := 1;
      }
      if current > longest {
        longest := current;
      }
      last := Some(day);
      return true;
    }

    method TouchDay(day: int) returns (extended: bool)
      modifies this
      ensures Gated(Row(), counted) == Pass(Gated(old(Row()), old(counted)), Visit(day))
      ensures extended <==> Row() != old(Row())
    {
      if day in counted {
        return false;
      }
      extended := TouchStreak(day);
      counted := counted + {day};
    }
  }
}
