/** back/internal/adapter/redis/ratelimit.go: a fixed window, kept by INCR, TTL
    and EXPIRE as separate commands of any number of callers.

    A key lives from the INCR that creates it until its expiry. An attempt
    belongs to the lifetime its INCR fell in, at the time of that INCR. */
module RateLimit {
  import opened Types

  /** The n-th attempt of a lifetime. */
  datatype Ticket = Ticket(life: nat, n: nat, at: int)

  datatype Counter = Counter(count: nat, expiry: Option<int>)

  datatype Phase =
    | Counted(ticket: Ticket)
    | Expiring(ticket: Ticket)
    | Deciding(ticket: Ticket)

  /** `starts` are the times lifetimes began, the last one being the counter's. */
  datatype World = World(now: int, counter: Option<Counter>, starts: seq<int>, callers: map<nat, Phase>,
                         admitted: seq<Ticket>, refused: seq<Ticket>)

  datatype Label = Incr(c: nat) | Look(c: nat) | Expire(c: nat) | LoseExpire(c: nat) | Decide(c: nat) | Tick(passed: nat)

  datatype Policy = Policy(limit: nat, window: nat)

  predicate Present(w: World) {
    w.counter.Some? && (w.counter.value.expiry.Some? ==> w.now < w.counter.value.expiry.value)
  }

  function Step(w: World, p: Policy, step: Label): World {
    match step
    case Tick(passed) => w.(now := w.now + passed)
    case Incr(c) =>
      if c in w.callers then w
      else if Present(w) && |w.starts| > 0 then
        var n := w.counter.value.count + 1;
        w.(counter := Some(w.counter.value.(count := n)),
           callers := w.callers[c := Counted(Ticket(|w.starts| - 1, n, w.now))])
      else
        w.(counter := Some(Counter(1, None)), starts := w.starts + [w.now],
           callers := w.callers[c := Counted(Ticket(|w.starts|, 1, w.now))])
    case Look(c) =>
      if c !in w.callers || !w.callers[c].Counted? then w
      else
        var ticket := w.callers[c].ticket;
        var lacking := ticket.n == 1 || !Present(w) || w.counter.value.expiry.None?;
        w.(callers := w.callers[c := if lacking then Expiring(ticket) else Deciding(ticket)])
    case Expire(c) =>
      if c !in w.callers || !w.callers[c].Expiring? then w
      else
        var moved := w.(callers := w.callers[c := Deciding(w.callers[c].ticket)]);
        if Present(w) then moved.(counter := Some(w.counter.value.(expiry := Some(w.now + p.window)))) else moved
    case LoseExpire(c) =>
      if c !in w.callers || !w.callers[c].Expiring? then w else w.(callers := w.callers - {c})
    case Decide(c) =>
      if c !in w.callers || !w.callers[c].Deciding? then w
      else
        var ticket := w.callers[c].ticket;
        var left := w.(callers := w.callers - {c});
        if ticket.n <= p.limit then left.(admitted := w.admitted + [ticket])
        else left.(refused := w.refused + [ticket])
  }

  const QUIET := World(0, None, [], map[], [], [])

  function Run(p: Policy, steps: seq<Label>): World {
    if |steps| == 0 then QUIET else Step(Run(p, steps[..|steps| - 1]), p, steps[|steps| - 1])
  }

  // ---------- the invariant ----------

  /** Every lifetime lasts a window at least. */
  ghost predicate LivesApart(w: World, p: Policy) {
    && (forall i, j :: 0 <= i < j < |w.starts| ==> w.starts[j] >= w.starts[i] + p.window)
    && (forall i :: 0 <= i < |w.starts| ==> w.starts[i] <= w.now)
    && (w.counter.Some? <==> |w.starts| > 0)
    && (w.counter.Some? ==>
          && w.counter.value.count >= 1
          && (w.counter.value.expiry.Some? ==> w.counter.value.expiry.value >= w.starts[|w.starts| - 1] + p.window))
  }

  /** The attempt fell in its lifetime. */
  ghost predicate TicketOK(w: World, t: Ticket) {
    && t.life < |w.starts| && t.n >= 1
    && w.starts[t.life] <= t.at <= w.now
    && (t.life + 1 < |w.starts| ==> t.at <= w.starts[t.life + 1])
    && (t.life + 1 == |w.starts| && w.counter.Some? ==> t.n <= w.counter.value.count)
  }

  predicate SameTicket(a: Ticket, b: Ticket) {
    a.life == b.life && a.n == b.n
  }

  ghost predicate Distinct(tickets: seq<Ticket>) {
    forall i, j :: 0 <= i < j < |tickets| ==> !SameTicket(tickets[i], tickets[j])
  }

  /** Once past ensureWindow, the caller's own counter has an expiry. */
  ghost predicate CallerOK(w: World, c: nat)
    requires c in w.callers
  {
    && TicketOK(w, w.callers[c].ticket)
    && (w.callers[c].Deciding? && w.callers[c].ticket.life + 1 == |w.starts| && w.counter.Some? ==> w.counter.value.expiry.Some?)
  }

  ghost predicate CallersOK(w: World) {
    forall c {:trigger CallerOK(w, c)} :: c in w.callers ==> CallerOK(w, c)
  }

  ghost predicate Apart(w: World, c: nat, d: nat)
    requires c in w.callers && d in w.callers
  {
    !SameTicket(w.callers[c].ticket, w.callers[d].ticket)
  }

  ghost predicate NotYetAdmitted(w: World, c: nat)
    requires c in w.callers
  {
    forall i :: 0 <= i < |w.admitted| ==> !SameTicket(w.callers[c].ticket, w.admitted[i])
  }

  ghost predicate Unshared(w: World) {
    && (forall c, d {:trigger Apart(w, c, d)} :: c in w.callers && d in w.callers && c != d ==> Apart(w, c, d))
    && (forall c {:trigger NotYetAdmitted(w, c)} :: c in w.callers ==> NotYetAdmitted(w, c))
    && Distinct(w.admitted)
  }

  ghost predicate AdmittedOK(w: World, p: Policy, i: nat)
    requires i < |w.admitted|
  {
    TicketOK(w, w.admitted[i]) && w.admitted[i].n <= p.limit
  }

  ghost predicate DecisionsOK(w: World, p: Policy) {
    && (forall i {:trigger AdmittedOK(w, p, i)} :: 0 <= i < |w.admitted| ==> AdmittedOK(w, p, i))
    && (forall i :: 0 <= i < |w.refused| ==> w.refused[i].n > p.limit)
  }

  ghost predicate Inv(w: World, p: Policy) {
    LivesApart(w, p) && CallersOK(w) && DecisionsOK(w, p) && Unshared(w)
  }

  // ---------- every step keeps it ----------

  lemma LivesStayApart(w: World, p: Policy, step: Label)
    requires LivesApart(w, p)
    ensures LivesApart(Step(w, p, step), p)
  {
  }

  /** Time goes on, lifetimes begin after one another, counters count up. */
  ghost predicate MovesOn(w: World, after: World) {
    && after.now >= w.now
    && (after.starts == w.starts || after.starts == w.starts + [w.now])
    && (w.counter.Some? ==> after.counter.Some?)
    && (after.starts == w.starts && w.counter.Some? ==>
          && after.counter.value.count >= w.counter.value.count
          && (w.counter.value.expiry.Some? ==> after.counter.value.expiry.Some?))
  }

  lemma StepMovesOn(w: World, p: Policy, step: Label)
    ensures MovesOn(w, Step(w, p, step))
  {
  }

  lemma TicketStays(w: World, after: World, t: Ticket)
    requires TicketOK(w, t) && MovesOn(w, after) && (w.counter.Some? <==> |w.starts| > 0)
    ensures TicketOK(after, t)
  {
  }

  lemma CallerStays(w: World, after: World, c: nat)
    requires c in w.callers && CallerOK(w, c) && MovesOn(w, after) && (w.counter.Some? <==> |w.starts| > 0)
    requires c in after.callers && after.callers[c] == w.callers[c]
    ensures CallerOK(after, c)
  {
    TicketStays(w, after, w.callers[c].ticket);
  }

  lemma MovedCallerOK(w: World, p: Policy, step: Label)
    requires LivesApart(w, p) && CallersOK(w) && !step.Tick? && !step.LoseExpire? && !step.Decide?
    ensures step.c in Step(w, p, step).callers ==> CallerOK(Step(w, p, step), step.c)
  {
    assert step.c in w.callers ==> CallerOK(w, step.c);
  }

  lemma CallersStayOK(w: World, p: Policy, step: Label)
    requires LivesApart(w, p) && CallersOK(w)
    ensures CallersOK(Step(w, p, step))
  {
    var after := Step(w, p, step);
    StepMovesOn(w, p, step);
    forall c | c in after.callers
      ensures CallerOK(after, c)
    {
      if c in w.callers && after.callers[c] == w.callers[c] {
        assert CallerOK(w, c);
        CallerStays(w, after, c);
      } else {
        MovedCallerOK(w, p, step);
      }
    }
  }

  lemma DecisionsStayOK(w: World, p: Policy, step: Label)
    requires LivesApart(w, p) && CallersOK(w) && DecisionsOK(w, p)
    ensures DecisionsOK(Step(w, p, step), p)
  {
    var after := Step(w, p, step);
    StepMovesOn(w, p, step);
    forall i | 0 <= i < |after.admitted|
      ensures AdmittedOK(after, p, i)
    {
      if i < |w.admitted| {
        assert AdmittedOK(w, p, i);
        TicketStays(w, after, w.admitted[i]);
      } else {
        assert CallerOK(w, step.c);
        TicketStays(w, after, w.callers[step.c].ticket);
      }
    }
  }

  /** The number INCR hands out is new. */
  lemma IncrIsNew(w: World, p: Policy, c: nat)
    requires Inv(w, p) && c !in w.callers
    ensures var t := Step(w, p, Incr(c)).callers[c].ticket;
            && (forall d :: d in w.callers ==> !SameTicket(t, w.callers[d].ticket))
            && (forall i :: 0 <= i < |w.admitted| ==> !SameTicket(t, w.admitted[i]))
  {
    forall d | d in w.callers
      ensures !SameTicket(Step(w, p, Incr(c)).callers[c].ticket, w.callers[d].ticket)
    {
      assert CallerOK(w, d);
    }
    forall i | 0 <= i < |w.admitted|
      ensures !SameTicket(Step(w, p, Incr(c)).callers[c].ticket, w.admitted[i])
    {
      assert AdmittedOK(w, p, i);
    }
  }

  lemma StaysUnshared(w: World, p: Policy, step: Label)
    requires Inv(w, p)
    ensures Unshared(Step(w, p, step))
  {
    var after := Step(w, p, step);
    if step.Incr? && step.c !in w.callers {
      IncrIsNew(w, p, step.c);
    }
    assert step.Decide? && step.c in w.callers ==> NotYetAdmitted(w, step.c);
    forall c, d | c in after.callers && d in after.callers && c != d
      ensures Apart(after, c, d)
    {
      assert c in w.callers && d in w.callers ==> Apart(w, c, d);
    }
    forall c | c in after.callers
      ensures NotYetAdmitted(after, c)
    {
      assert c in w.callers ==> NotYetAdmitted(w, c);
      assert c in w.callers && step.Decide? && step.c in w.callers && c != step.c ==> Apart(w, c, step.c);
    }
  }

  lemma {:induction false} EveryRunKeepsInv(p: Policy, steps: seq<Label>)
    ensures Inv(Run(p, steps), p)
  {
    if |steps| > 0 {
      var w, step := Run(p, steps[..|steps| - 1]), steps[|steps| - 1];
      EveryRunKeepsInv(p, steps[..|steps| - 1]);
      LivesStayApart(w, p, step);
      CallersStayOK(w, p, step);
      DecisionsStayOK(w, p, step);
      StaysUnshared(w, p, step);
    }
  }

  // ---------- how many get through ----------

  /** Distinct numbers up to a bound are at most that many. */
  lemma {:induction false} NumbersBound(tickets: seq<Ticket>, chosen: set<nat>, life: nat, bound: nat)
    requires Distinct(tickets)
    requires forall i :: i in chosen ==> i < |tickets| && tickets[i].life == life && 1 <= tickets[i].n <= bound
    ensures |chosen| <= bound
    decreases bound
  {
    if bound == 0 {
      if i :| i in chosen {
        assert false;
      }
    } else if top :| top in chosen && tickets[top].n == bound {
      var rest := chosen - {top};
      forall i | i in rest
        ensures tickets[i].n <= bound - 1
      {
        assert !SameTicket(tickets[i], tickets[top]) || i == top;
      }
      NumbersBound(tickets, rest, life, bound - 1);
    } else {
      NumbersBound(tickets, chosen, life, bound - 1);
    }
  }

  /** The admitted attempts of one lifetime, as places in the record. */
  ghost function OfLife(tickets: seq<Ticket>, life: nat): set<nat> {
    set i: nat | i < |tickets| && tickets[i].life == life
  }

  /** The admitted attempts of a half-open span of time. */
  ghost function During(tickets: seq<Ticket>, from: int, span: nat): set<nat> {
    set i: nat | i < |tickets| && from <= tickets[i].at < from + span
  }

  /** No lifetime of a key admits more than the limit. */
  lemma LimitPerLifetime(p: Policy, steps: seq<Label>, life: nat)
    ensures |OfLife(Run(p, steps).admitted, life)| <= p.limit
  {
    var w := Run(p, steps);
    EveryRunKeepsInv(p, steps);
    forall i | i in OfLife(w.admitted, life)
      ensures 1 <= w.admitted[i].n <= p.limit
    {
      assert AdmittedOK(w, p, i);
    }
    NumbersBound(w.admitted, OfLife(w.admitted, life), life, p.limit);
  }

  /** Attempts of lifetimes that are not next to each other are a window apart at least. */
  lemma DistantLives(w: World, p: Policy, a: Ticket, b: Ticket)
    requires LivesApart(w, p) && TicketOK(w, a) && TicketOK(w, b) && a.life + 2 <= b.life
    ensures b.at >= a.at + p.window
  {
    assert w.starts[b.life] >= w.starts[a.life + 1] + p.window;
  }

  /** So a window's worth of attempts is of one lifetime or of two in succession. */
  lemma InTwoLives(p: Policy, steps: seq<Label>, from: int, first: nat)
    requires var w := Run(p, steps);
             var seen := During(w.admitted, from, p.window);
             first in seen && forall i :: i in seen ==> w.admitted[first].life <= w.admitted[i].life
    ensures var w := Run(p, steps);
            var life := w.admitted[first].life;
            During(w.admitted, from, p.window) <= OfLife(w.admitted, life) + OfLife(w.admitted, life + 1)
  {
    var w := Run(p, steps);
    var seen := During(w.admitted, from, p.window);
    EveryRunKeepsInv(p, steps);
    forall i | i in seen
      ensures w.admitted[i].life <= w.admitted[first].life + 1
    {
      assert AdmittedOK(w, p, first) && AdmittedOK(w, p, i);
      if w.admitted[i].life >= w.admitted[first].life + 2 {
        DistantLives(w, p, w.admitted[first], w.admitted[i]);
      }
    }
  }

  lemma SizeOfUnion(a: set<nat>, b: set<nat>, c: set<nat>)
    requires a <= b + c
    ensures |a| <= |b| + |c|
  {
    assert a == (a * b) + (a - b);
    SubsetSize(a * b, b);
    SubsetSize(a - b, c);
  }

  lemma {:induction false} SubsetSize(a: set<nat>, b: set<nat>)
    requires a <= b
    ensures |a| <= |b|
  {
    if x :| x in a {
      SubsetSize(a - {x}, b - {x});
    }
  }

  /** Whatever the interleaving of the commands, no half-open span of one
      window admits more than twice the limit. */
  lemma TwiceTheLimitPerWindow(p: Policy, steps: seq<Label>, from: int)
    ensures |During(Run(p, steps).admitted, from, p.window)| <= 2 * p.limit
  {
    var admitted := Run(p, steps).admitted;
    var seen := During(admitted, from, p.window);
    if any :| any in seen {
      var first := Earliest(admitted, seen, any);
      InTwoLives(p, steps, from, first);
      TwoLivesBound(p, steps, seen, admitted[first].life);
    }
  }

  lemma TwoLivesBound(p: Policy, steps: seq<Label>, seen: set<nat>, life: nat)
    requires var admitted := Run(p, steps).admitted; seen <= OfLife(admitted, life) + OfLife(admitted, life + 1)
    ensures |seen| <= 2 * p.limit
  {
    var admitted := Run(p, steps).admitted;
    LimitPerLifetime(p, steps, life);
    LimitPerLifetime(p, steps, life + 1);
    SizeOfUnion(seen, OfLife(admitted, life), OfLife(admitted, life + 1));
  }

  lemma {:induction false} Earliest(tickets: seq<Ticket>, seen: set<nat>, any: nat) returns (first: nat)
    requires any in seen && forall i :: i in seen ==> i < |tickets|
    ensures first in seen && forall i :: i in seen ==> tickets[first].life <= tickets[i].life
    decreases tickets[any].life
  {
    if other :| other in seen && tickets[other].life < tickets[any].life {
      first := Earliest(tickets, seen, other);
    } else {
      first := any;
    }
  }

  /** An attempt is only refused once the limit has been counted in its lifetime. */
  lemma RefusedOnlyPastTheLimit(p: Policy, steps: seq<Label>, c: nat)
    requires c in Run(p, steps).callers && Run(p, steps).callers[c].Deciding?
    ensures var w, after := Run(p, steps), Run(p, steps + [Decide(c)]);
            var t := w.callers[c].ticket;
            && (after.admitted == w.admitted + [t] <==> t.n <= p.limit)
            && (t.life + 1 == |w.starts| && t.n > p.limit ==> w.counter.Some? && w.counter.value.count > p.limit)
  {
    EveryRunKeepsInv(p, steps);
    assert CallerOK(Run(p, steps), c);
    RunOn(p, steps, Decide(c));
  }

  /** A key whose expiry was lost gets one from the next call that completes:
      nobody decides on a counter that would never end. */
  lemma MissingExpiryIsRepaired(p: Policy, steps: seq<Label>, c: nat)
    requires var w := Run(p, steps);
             && c in w.callers && w.callers[c].Deciding? && w.callers[c].ticket.life + 1 == |w.starts|
    ensures var w := Run(p, steps); w.counter.Some? && w.counter.value.expiry.Some?
  {
    EveryRunKeepsInv(p, steps);
    assert CallerOK(Run(p, steps), c);
  }

  // ---------- when the window is set ----------

  predicate LacksExpiry(w: World) {
    !Present(w) || w.counter.value.expiry.None?
  }

  /** The caller had looked and found no expiry. */
  ghost predicate FoundNone(p: Policy, steps: seq<Label>, c: nat) {
    exists j :: 0 <= j < |steps| && steps[j] == Look(c) && LacksExpiry(Run(p, steps[..j]))
  }

  lemma {:induction false} ExpiringWhenDue(p: Policy, steps: seq<Label>, c: nat)
    requires c in Run(p, steps).callers && Run(p, steps).callers[c].Expiring?
    ensures Run(p, steps).callers[c].ticket.n == 1 || FoundNone(p, steps, c)
  {
    if |steps| > 0 {
      var earlier, last := steps[..|steps| - 1], steps[|steps| - 1];
      var w := Run(p, earlier);
      if c in w.callers && w.callers[c] == Run(p, steps).callers[c] {
        ExpiringWhenDue(p, earlier, c);
        if FoundNone(p, earlier, c) {
          var j :| 0 <= j < |earlier| && earlier[j] == Look(c) && LacksExpiry(Run(p, earlier[..j]));
          assert steps[j] == Look(c) && steps[..j] == earlier[..j];
        }
      }
    }
  }

  /** The expiry of a counter only ever moves to a window from now, and only by
      the first attempt of its lifetime or by one that had found none. */
  lemma WindowMovesOnlyWhenDue(p: Policy, steps: seq<Label>, step: Label)
    requires var w, after := Run(p, steps), Run(p, steps + [step]);
             w.counter.Some? && after.starts == w.starts && after.counter.Some?
             && after.counter.value.expiry != w.counter.value.expiry
    ensures var w, after := Run(p, steps), Run(p, steps + [step]);
            && after.counter.value.expiry == Some(w.now + p.window)
            && step.Expire? && step.c in w.callers
            && (w.callers[step.c].ticket.n == 1 || FoundNone(p, steps, step.c))
  {
    RunOn(p, steps, step);
    if step.Expire? && step.c in Run(p, steps).callers {
      ExpiringWhenDue(p, steps, step.c);
    }
  }

  lemma RunOn(p: Policy, steps: seq<Label>, step: Label)
    ensures Run(p, steps + [step]) == Step(Run(p, steps), p, step)
  {
    assert (steps + [step])[..|steps|] == steps;
  }

  /** One call undisturbed: INCR, TTL, EXPIRE if it is due, and the verdict. */
  function Attempt(c: nat): seq<Label> {
    [Incr(c), Look(c)] + [Expire(c), Decide(c)]
  }

  lemma AttemptRuns(p: Policy, steps: seq<Label>, c: nat)
    ensures Run(p, steps + Attempt(c))
            == Step(Step(Step(Step(Run(p, steps), p, Incr(c)), p, Look(c)), p, Expire(c)), p, Decide(c))
  {
    RunOn(p, steps, Incr(c));
    RunOn(p, steps + [Incr(c)], Look(c));
    RunOn(p, steps + [Incr(c)] + [Look(c)], Expire(c));
    RunOn(p, steps + [Incr(c)] + [Look(c)] + [Expire(c)], Decide(c));
    assert steps + Attempt(c) == steps + [Incr(c)] + [Look(c)] + [Expire(c)] + [Decide(c)];
  }

  /** A running window counted the attempt and kept its end; without one a window
      began now; the attempt was let through exactly up to the limit. */
  ghost predicate CountedOnce(p: Policy, w: World, after: World) {
    && after.callers == w.callers && after.now == w.now && after.counter.Some? && |after.starts| > 0
    && (if w.counter.Some? && (w.counter.value.expiry.None? || w.now < w.counter.value.expiry.value)
        then after.starts == w.starts && after.counter.value.count == w.counter.value.count + 1
             && after.counter.value.expiry == Some(w.counter.value.expiry.GetOr(w.now + p.window))
        else after.starts == w.starts + [w.now] && after.counter.value == Counter(1, Some(w.now + p.window)))
    && var count := after.counter.value.count;
       var ticket := Ticket(|after.starts| - 1, count, w.now);
       && after.admitted == (if count <= p.limit then w.admitted + [ticket] else w.admitted)
       && after.refused == (if count <= p.limit then w.refused else w.refused + [ticket])
  }

  lemma AttemptCounts(p: Policy, w: World, c: nat)
    requires LivesApart(w, p) && c !in w.callers && p.window > 0
    ensures CountedOnce(p, w, Step(Step(Step(Step(w, p, Incr(c)), p, Look(c)), p, Expire(c)), p, Decide(c)))
  {
    var counted := Step(w, p, Incr(c));
    assert counted.callers - {c} == w.callers;
  }

  /** An undisturbed attempt is counted once, whatever went before it. */
  lemma UndisturbedAttempt(p: Policy, steps: seq<Label>, c: nat)
    requires c !in Run(p, steps).callers && p.window > 0
    ensures CountedOnce(p, Run(p, steps), Run(p, steps + Attempt(c)))
  {
    EveryRunKeepsInv(p, steps);
    AttemptRuns(p, steps, c);
    AttemptCounts(p, Run(p, steps), c);
  }

  // ---------- the limiter as an object ----------

  class RateLimiter {
    var count: nat
    var expiry: Option<int>

    /** The attempts counted so far in the lifetime a caller would meet now. */
    function Used(now: int): nat
      reads this
    {
      if expiry.Some? && now >= expiry.value then 0 else count
    }

    constructor ()
      ensures Used(0) == 0 && expiry == None
    {
      count, expiry := 0, None;
    }

    method EnsureWindow(now: int, window: nat, first: bool)
      modifies this`expiry
      ensures first || old(expiry) == None ==> expiry == Some(now + window)
      ensures !first && old(expiry).Some? ==> expiry == old(expiry)
    {
      if first {
        expiry := Some(now + window);
        return;
      }
      if expiry == None {
        expiry := Some(now + window);
      }
    }

    /** Lets the attempt through while the window has room, counting it either
        way; afterwards the counter always ends by itself. */
    method Allow(now: int, limit: nat, window: nat) returns (allowed: bool, retryAfter: int)
      requires window > 0
      modifies this
      ensures allowed <==> old(Used(now)) < limit
      ensures Used(now) == old(Used(now)) + 1
      ensures expiry.Some? && expiry.value > now
      ensures !allowed ==> 0 < retryAfter && now + retryAfter == expiry.value
      ensures old(Used(now)) > 0 && old(expiry).Some? ==> expiry == old(expiry)
    {
      if expiry.Some? && now >= expiry.value {
        count, expiry := 0, None;
      }
      count := count + 1;
      EnsureWindow(now, window, count == 1);
      if count <= limit {
        return true, 0;
      }
      return false, expiry.value - now;
    }
  }
}
