/** front/src/shared/api/client.ts: when a renewal goes out, and what whoever
    asked for one may rely on, over every run of the protocol of Renewal,
    answers lost and sessions revoked included. */
module RenewalProgress {
  import opened Types
  import opened Renewal

  // ---------- what requests went through ----------

  /** The i-th move is the first of r, a request going out with this CSRF value. */
  ghost predicate SentAs(limits: Limits, moves: seq<Move>, i: nat, r: nat, csrf: Option<nat>) {
    i < |moves| && moves[i] == Send(r) && !At(Run(limits, moves[..i]), r) && Csrf(Run(limits, moves[..i]).jar) == csrf
  }

  /** The i-th move is the first of r, a rotation on purpose. */
  ghost predicate WantedAt(limits: Limits, moves: seq<Move>, i: nat, r: nat) {
    i < |moves| && moves[i] == WantRotation(r) && !At(Run(limits, moves[..i]), r)
  }

  /** It was sent with this value, and then refused. */
  ghost predicate SentAndRefused(limits: Limits, moves: seq<Move>, r: nat, csrf: Option<nat>) {
    exists i, m :: 0 <= i < m < |moves| && moves[m] == Refused(r) && SentAs(limits, moves, i, r, csrf)
  }

  ghost predicate WasSent(limits: Limits, moves: seq<Move>, r: nat, csrf: Option<nat>) {
    exists i :: SentAs(limits, moves, i, r, csrf)
  }

  ghost predicate WasWanted(limits: Limits, moves: seq<Move>, r: nat) {
    exists i :: WantedAt(limits, moves, i, r)
  }

  /** What the phase of a request says about its past. */
  ghost predicate Past(limits: Limits, moves: seq<Move>, r: nat, phase: Phase) {
    match phase
    case Sent(csrf) => WasSent(limits, moves, r, csrf)
    case Waiting(csrf) => SentAndRefused(limits, moves, r, csrf)
    case Holding(csrf) => SentAndRefused(limits, moves, r, csrf)
    case WaitingToRotate => WasWanted(limits, moves, r)
    case HoldingToRotate => WasWanted(limits, moves, r)
    case _ => true
  }

  /** The past stays. */
  lemma PastStays(limits: Limits, moves: seq<Move>, move: Move, r: nat, phase: Phase)
    requires Past(limits, moves, r, phase)
    ensures Past(limits, moves + [move], r, phase)
  {
    var longer := moves + [move];
    assert forall i :: 0 <= i < |moves| ==> longer[i] == moves[i] && longer[..i] == moves[..i];
    match phase
    case Sent(csrf) =>
      var i: nat :| SentAs(limits, moves, i, r, csrf);
      assert SentAs(limits, longer, i, r, csrf);
    case Waiting(csrf) =>
      var i: nat, m: nat :| 0 <= i < m < |moves| && moves[m] == Refused(r) && SentAs(limits, moves, i, r, csrf);
      assert SentAs(limits, longer, i, r, csrf) && longer[m] == Refused(r);
    case Holding(csrf) =>
      var i: nat, m: nat :| 0 <= i < m < |moves| && moves[m] == Refused(r) && SentAs(limits, moves, i, r, csrf);
      assert SentAs(limits, longer, i, r, csrf) && longer[m] == Refused(r);
    case WaitingToRotate =>
      var i: nat :| WantedAt(limits, moves, i, r);
      assert WantedAt(limits, longer, i, r);
    case HoldingToRotate =>
      var i: nat :| WantedAt(limits, moves, i, r);
      assert WantedAt(limits, longer, i, r);
    case _ =>
  }

  /** A first move is a Send or a WantRotation. */
  lemma PastBegins(limits: Limits, moves: seq<Move>, move: Move, r: nat)
    requires r !in Run(limits, moves).requests && r in Next(Run(limits, moves), limits, move).requests
    ensures Past(limits, moves + [move], r, Next(Run(limits, moves), limits, move).requests[r])
  {
    var n, longer := Run(limits, moves), moves + [move];
    FirstMove(n, limits, move, r);
    assert longer[|moves|] == move && longer[..|moves|] == moves;
    assert move == Send(r) ==> SentAs(limits, longer, |moves|, r, Csrf(n.jar));
    assert move == WantRotation(r) ==> WantedAt(limits, longer, |moves|, r);
  }

  lemma PastRefused(limits: Limits, moves: seq<Move>, r: nat, csrf: Option<nat>)
    requires Past(limits, moves, r, Sent(csrf))
    ensures Past(limits, moves + [Refused(r)], r, Waiting(csrf))
  {
    var longer := moves + [Refused(r)];
    PastStays(limits, moves, Refused(r), r, Sent(csrf));
    var i: nat :| SentAs(limits, longer, i, r, csrf);
    assert longer[|moves|] == Refused(r);
  }

  lemma PastGoesOn(limits: Limits, moves: seq<Move>, move: Move, r: nat)
    requires r in Run(limits, moves).requests && Past(limits, moves, r, Run(limits, moves).requests[r])
    ensures Past(limits, moves + [move], r, Next(Run(limits, moves), limits, move).requests[r])
  {
    var phase := Run(limits, moves).requests[r];
    PastStays(limits, moves, move, r, phase);
    LaterMove(Run(limits, moves), limits, move, r);
    if move == Refused(r) && phase.Sent? {
      PastRefused(limits, moves, r, phase.sentWith);
    }
  }

  /** The phases that have a past follow one another. */
  lemma LaterMove(n: Net, limits: Limits, move: Move, r: nat)
    requires r in n.requests
    ensures r in Next(n, limits, move).requests
    ensures match Next(n, limits, move).requests[r]
            case Sent(csrf) => n.requests[r] == Sent(csrf)
            case Waiting(csrf) => n.requests[r] == Waiting(csrf) || (n.requests[r] == Sent(csrf) && move == Refused(r))
            case Holding(csrf) => n.requests[r] == Holding(csrf) || n.requests[r] == Waiting(csrf)
            case WaitingToRotate => n.requests[r] == WaitingToRotate
            case HoldingToRotate => n.requests[r].HoldingToRotate? || n.requests[r].WaitingToRotate?
            case _ => true
  {
  }

  lemma FirstMove(n: Net, limits: Limits, move: Move, r: nat)
    requires r !in n.requests && r in Next(n, limits, move).requests
    ensures move == Send(r) || move == WantRotation(r)
    ensures Next(n, limits, move).requests[r] == if move == Send(r) then Sent(Csrf(n.jar)) else WaitingToRotate
  {
  }

  lemma {:induction false} EveryPast(limits: Limits, moves: seq<Move>, r: nat)
    requires At(Run(limits, moves), r)
    ensures Past(limits, moves, r, Run(limits, moves).requests[r])
  {
    if |moves| > 0 {
      var earlier, last := moves[..|moves| - 1], moves[|moves| - 1];
      assert moves == earlier + [last];
      if At(Run(limits, earlier), r) {
        EveryPast(limits, earlier, r);
        PastGoesOn(limits, earlier, last, r);
      } else {
        PastBegins(limits, earlier, last, r);
      }
    }
  }

  // ---------- every renewal was due ----------

  /** The j-th move is the Decide that sent the k-th renewal, and it was due:
      the CSRF value is the browser's at that moment, and either it is the very
      value with which a refused request had gone out, or the pair is rotated on purpose. */
  ghost predicate PostDue(limits: Limits, moves: seq<Move>, k: nat, j: nat, csrf: nat) {
    && j < |moves| && moves[j].Decide?
    && |Run(limits, moves[..j]).posts| == k && Csrf(Run(limits, moves[..j]).jar) == Some(csrf)
    && (|| SentAndRefused(limits, moves[..j], moves[j].r, Some(csrf))
        || WasWanted(limits, moves[..j], moves[j].r))
  }

  lemma PostsGrow(n: Net, limits: Limits, move: Move)
    ensures var after := Next(n, limits, move);
            || after.posts == n.posts
            || (&& move.Decide? && At(n, move.r) && n.jar.Some? && after.posts == n.posts + [n.jar.value.csrf]
                && (n.requests[move.r] == Holding(Csrf(n.jar)) || n.requests[move.r].HoldingToRotate?))
  {
  }

  lemma PostStaysDue(limits: Limits, moves: seq<Move>, move: Move, k: nat, csrf: nat)
    requires exists j :: PostDue(limits, moves, k, j, csrf)
    ensures exists j :: PostDue(limits, moves + [move], k, j, csrf)
  {
    var j: nat :| PostDue(limits, moves, k, j, csrf);
    assert (moves + [move])[..j] == moves[..j];
    assert PostDue(limits, moves + [move], k, j, csrf);
  }

  /** No renewal goes out that was not due. */
  lemma {:induction false} EveryPostWasDue(limits: Limits, moves: seq<Move>, k: nat)
    requires k < |Run(limits, moves).posts|
    ensures exists j :: PostDue(limits, moves, k, j, Run(limits, moves).posts[k])
  {
    if |moves| > 0 {
      var earlier, last := moves[..|moves| - 1], moves[|moves| - 1];
      var n, csrf := Run(limits, earlier), Run(limits, moves).posts[k];
      assert moves == earlier + [last];
      PostsGrow(n, limits, last);
      if k < |n.posts| {
        EveryPostWasDue(limits, earlier, k);
        PostStaysDue(limits, earlier, last, k, csrf);
      } else {
        EveryPast(limits, earlier, last.r);
        assert PostDue(limits, moves, k, |moves| - 1, csrf);
      }
    }
  }

  // ---------- whoever is told so has been renewed ----------

  ghost predicate OrderedRequest(n: Net, r: nat)
    requires r in n.requests
  {
    var phase := n.requests[r];
    && (phase.Holding? || phase.HoldingToRotate? ==> n.holder == Some(r))
    && (phase.Done? && !phase.renewed ==> n.jar.None?)
    && (n.holder == Some(r) && PostedYet(phase) ==>
          && n.jar.Some?
          && (phase.Saving? ==> n.jar.value.csrf < phase.made < n.made)
          && (phase.Answering? && phase.answer.Some? ==> n.jar.value.csrf < phase.answer.value.csrf < n.made))
  }

  /** CSRF values only grow, and a browser that lost its cookies stays without. */
  ghost predicate Ordered(n: Net) {
    && (n.jar.Some? ==> n.jar.value.csrf < n.made)
    && (forall r :: r in n.requests ==> OrderedRequest(n, r))
  }

  lemma RequestStaysOrdered(n: Net, limits: Limits, move: Move, q: nat)
    requires Ordered(n) && q in Next(n, limits, move).requests
    ensures OrderedRequest(Next(n, limits, move), q)
  {
    assert q in n.requests ==> OrderedRequest(n, q);
    if !move.Pass? {
      assert move.r in n.requests ==> OrderedRequest(n, move.r);
    }
  }

  lemma JarStaysOrdered(n: Net, limits: Limits, move: Move)
    requires Ordered(n)
    ensures var after := Next(n, limits, move); after.jar.Some? ==> after.jar.value.csrf < after.made
  {
    if move.Deliver? {
      assert move.r in n.requests ==> OrderedRequest(n, move.r);
    }
  }

  lemma NextKeepsOrder(n: Net, limits: Limits, move: Move)
    requires Ordered(n)
    ensures Ordered(Next(n, limits, move))
  {
    JarStaysOrdered(n, limits, move);
    forall q | q in Next(n, limits, move).requests
      ensures OrderedRequest(Next(n, limits, move), q)
    {
      RequestStaysOrdered(n, limits, move, q);
    }
  }

  lemma {:induction false} EveryRunIsOrdered(limits: Limits, moves: seq<Move>)
    ensures Ordered(Run(limits, moves))
  {
    if |moves| > 0 {
      var earlier := moves[..|moves| - 1];
      EveryRunIsOrdered(limits, earlier);
      NextKeepsOrder(Run(limits, earlier), limits, moves[|moves| - 1]);
    }
  }

  /** How far a request sent with this value has come. */
  ghost predicate Came(n: Net, r: nat, csrf: Option<nat>) {
    && At(n, r)
    && (n.jar.Some? ==> csrf.Some? && csrf.value <= n.jar.value.csrf)
    && match n.requests[r]
       case Sent(c) => c == csrf
       case Waiting(c) => c == csrf
       case Holding(c) => c == csrf
       case WaitingToRotate => false
       case HoldingToRotate => false
       case Done(renewed) => renewed ==> csrf.Some? && (n.jar.Some? ==> csrf.value < n.jar.value.csrf)
       case _ => csrf.Some?
  }

  lemma NextComesFurther(n: Net, limits: Limits, move: Move, r: nat, csrf: Option<nat>)
    requires Ordered(n) && Came(n, r, csrf)
    ensures Came(Next(n, limits, move), r, csrf)
  {
    assert OrderedRequest(n, r);
    if !move.Pass? {
      assert move.r in n.requests ==> OrderedRequest(n, move.r);
    }
  }

  lemma {:induction false} EverySentCame(limits: Limits, moves: seq<Move>, i: nat, r: nat, csrf: Option<nat>)
    requires SentAs(limits, moves, i, r, csrf)
    ensures Came(Run(limits, moves), r, csrf)
  {
    var earlier, last := moves[..|moves| - 1], moves[|moves| - 1];
    if i < |earlier| {
      assert earlier[..i] == moves[..i];
      EverySentCame(limits, earlier, i, r, csrf);
      EveryRunIsOrdered(limits, earlier);
      NextComesFurther(Run(limits, earlier), limits, last, r, csrf);
    }
  }

  /** A request that is told to try again finds another CSRF value in the
      browser than the one it was sent with, or nothing, if the session ended
      since. One that is told the session is over finds nothing. */
  lemma RenewedMeansChanged(limits: Limits, moves: seq<Move>, i: nat, r: nat, csrf: Option<nat>)
    requires SentAs(limits, moves, i, r, csrf) && At(Run(limits, moves), r) && Run(limits, moves).requests[r].Done?
    ensures var n := Run(limits, moves);
            && (n.requests[r].renewed ==> csrf.Some? && Csrf(n.jar) != csrf)
            && (!n.requests[r].renewed ==> n.jar == None)
  {
    EverySentCame(limits, moves, i, r, csrf);
    EveryRunIsOrdered(limits, moves);
    assert OrderedRequest(Run(limits, moves), r);
  }

  /** The holder of the lock sends the renewal exactly when the browser still has
      the value its request was sent with, and otherwise none: it is told to try
      again if the browser has another, and that the session is over if it has none. */
  lemma RenewsExactlyWhenDue(limits: Limits, moves: seq<Move>, i: nat, r: nat, csrf: Option<nat>)
    requires SentAs(limits, moves, i, r, csrf) && At(Run(limits, moves), r) && Run(limits, moves).requests[r].Holding?
    ensures var n, after := Run(limits, moves), Run(limits, moves + [Decide(r)]);
            && At(after, r)
            && (if n.jar.Some? && Csrf(n.jar) == csrf
                then after.requests[r] == Posted(n.jar.value) && after.posts == n.posts + [n.jar.value.csrf] && after.holder == Some(r)
                else after.requests[r] == Done(n.jar.Some?) && after.posts == n.posts && after.holder == None)
            && after.jar == n.jar && after.store == n.store
  {
    EverySentCame(limits, moves, i, r, csrf);
    EveryRunIsOrdered(limits, moves);
    assert OrderedRequest(Run(limits, moves), r);
    RunOn(limits, moves, Decide(r));
  }

  /** A rotation on purpose goes out whatever the browser has, as long as it has anything. */
  lemma RotatesWheneverSignedIn(limits: Limits, moves: seq<Move>, r: nat)
    requires At(Run(limits, moves), r) && Run(limits, moves).requests[r].HoldingToRotate?
    ensures var n, after := Run(limits, moves), Run(limits, moves + [Decide(r)]);
            && At(after, r)
            && (if n.jar.Some?
                then after.requests[r] == Posted(n.jar.value) && after.posts == n.posts + [n.jar.value.csrf]
                else after.requests[r] == Done(false) && after.posts == n.posts)
  {
    EveryRunIsOrdered(limits, moves);
    assert OrderedRequest(Run(limits, moves), r);
    RunOn(limits, moves, Decide(r));
  }

  /** The first request of a session to be refused sends the renewal. */
  lemma FirstRefusedRenews(limits: Limits)
    ensures var n := Run(limits, [Send(1)] + [Refused(1)] + [Acquire(1)] + [Decide(1)]);
            1 in n.requests && n.requests[1] == Posted(Pair(0, 0)) && n.posts == [0]
  {
    var sent: seq<Move> := [Send(1)];
    RunOn(limits, [], Send(1));
    assert [] + sent == sent;
    RunOn(limits, sent, Refused(1));
    RunOn(limits, sent + [Refused(1)], Acquire(1));
    RunOn(limits, sent + [Refused(1)] + [Acquire(1)], Decide(1));
  }

  // ---------- nobody waits for ever ----------

  /** How many moves of the protocol a request has behind it. */
  function Rank(phase: Phase): nat {
    match phase
    case Sent(_) => 0
    case Waiting(_) => 0
    case WaitingToRotate => 0
    case Holding(_) => 1
    case HoldingToRotate => 1
    case Posted(_) => 2
    case Presenting(_) => 3
    case Judged(_, _) => 4
    case Saving(_) => 5
    case Answering(_) => 6
    case Done(_) => 7
  }

  function MoveOf(rank: nat, r: nat): Move
    requires rank < 7
  {
    if rank == 0 then Acquire(r)
    else if rank == 1 then Decide(r)
    else if rank == 2 then Present(r)
    else if rank == 3 then Judge(r)
    else if rank == 4 then StartSave(r)
    else if rank == 5 then EndSave(r)
    else Deliver(r)
  }

  /** The moves that bring a request from the lock to its answer. */
  function Round(r: nat): seq<Move> {
    seq(7, i requires 0 <= i < 7 => MoveOf(i, r))
  }

  /** It is its turn, or it has been. */
  ghost predicate Ready(n: Net, r: nat, rank: nat) {
    && At(n, r) && !n.requests[r].Sent? && Rank(n.requests[r]) >= rank
    && (Rank(n.requests[r]) == 0 ==> n.holder == None)
    && (Rank(n.requests[r]) == 7 ==> n.holder != Some(r))
  }

  /** No other request moved. */
  ghost predicate Others(n: Net, after: Net, r: nat) {
    forall q :: q in n.requests && q != r ==> q in after.requests && after.requests[q] == n.requests[q]
  }

  lemma OneMoveOfTheRound(n: Net, limits: Limits, r: nat, rank: nat)
    requires Quiet(n) && rank < 7 && Ready(n, r, rank)
    ensures Ready(Next(n, limits, MoveOf(rank, r)), r, rank + 1)
  {
    assert QuietRequest(n, r);
  }

  lemma RoundIsPrivate(n: Net, limits: Limits, r: nat, rank: nat)
    requires rank < 7
    ensures var after := Next(n, limits, MoveOf(rank, r));
            && after.lost == n.lost && Others(n, after, r)
            && (FreeFor(n, r) ==> FreeFor(after, r))
  {
  }

  /** Nobody else has the lock. */
  predicate FreeFor(n: Net, r: nat) {
    n.holder.None? || n.holder == Some(r)
  }

  lemma {:induction false} SomeOfTheRound(limits: Limits, moves: seq<Move>, r: nat, k: nat)
    requires limits.ttl > 0 && k <= 7 && Run(limits, moves).lost == 0 && Ready(Run(limits, moves), r, 0)
    ensures var n, after := Run(limits, moves), Run(limits, moves + Round(r)[..k]);
            after.lost == 0 && Ready(after, r, k) && Others(n, after, r) && (FreeFor(n, r) ==> FreeFor(after, r))
  {
    if k == 0 {
      assert moves + Round(r)[..0] == moves;
    } else {
      SomeOfTheRound(limits, moves, r, k - 1);
      OneMore(limits, moves + Round(r)[..k - 1], r, k - 1);
      assert moves + Round(r)[..k] == moves + Round(r)[..k - 1] + [MoveOf(k - 1, r)];
    }
  }

  lemma OneMore(limits: Limits, moves: seq<Move>, r: nat, rank: nat)
    requires limits.ttl > 0 && rank < 7 && Run(limits, moves).lost == 0 && Ready(Run(limits, moves), r, rank)
    ensures var n, after := Run(limits, moves), Run(limits, moves + [MoveOf(rank, r)]);
            after.lost == 0 && Ready(after, r, rank + 1) && Others(n, after, r) && (FreeFor(n, r) ==> FreeFor(after, r))
  {
    QuietRuns(limits, moves);
    OneMoveOfTheRound(Run(limits, moves), limits, r, rank);
    RoundIsPrivate(Run(limits, moves), limits, r, rank);
    RunOn(limits, moves, MoveOf(rank, r));
  }

  /** With no answer lost, a request whose turn it is gets through in one round,
      leaves the lock, and changes no other request. */
  lemma OneRoundRenews(limits: Limits, moves: seq<Move>, r: nat)
    requires limits.ttl > 0 && Run(limits, moves).lost == 0
    requires At(Run(limits, moves), r) && !Run(limits, moves).requests[r].Sent?
    requires FreeFor(Run(limits, moves), r)
    ensures var n, after := Run(limits, moves), Run(limits, moves + Round(r));
            && after.lost == 0 && after.holder == None
            && At(after, r) && after.requests[r] == Done(true)
            && Others(n, after, r)
  {
    QuietRuns(limits, moves);
    EveryRunIsHeld(limits, moves);
    SomeOfTheRound(limits, moves, r, 7);
    assert Round(r)[..7] == Round(r);
    QuietRuns(limits, moves + Round(r));
    assert QuietRequest(Run(limits, moves + Round(r)), r);
  }

  /** Whoever holds the lock is inside. */
  ghost predicate Held(n: Net) {
    n.holder.Some? ==> At(n, n.holder.value) && InLock(n.requests[n.holder.value])
  }

  lemma {:induction false} EveryRunIsHeld(limits: Limits, moves: seq<Move>)
    ensures Held(Run(limits, moves))
  {
    if |moves| > 0 {
      EveryRunIsHeld(limits, moves[..|moves| - 1]);
    }
  }

  /** With no answer lost, any request that was refused, or wants a rotation, can
      still be renewed: in one round once the holder of the lock, if there is
      another, has finished its own. */
  lemma NobodyWaitsForEver(limits: Limits, moves: seq<Move>, r: nat)
    requires limits.ttl > 0 && Run(limits, moves).lost == 0
    requires At(Run(limits, moves), r) && !Run(limits, moves).requests[r].Sent?
    ensures var n := Run(limits, moves);
            var before := if !FreeFor(n, r) then Round(n.holder.value) else [];
            var after := Run(limits, moves + before + Round(r));
            At(after, r) && after.requests[r] == Done(true) && after.holder == None
  {
    var n := Run(limits, moves);
    if !FreeFor(n, r) {
      EveryRunIsHeld(limits, moves);
      OneRoundRenews(limits, moves, n.holder.value);
      OneRoundRenews(limits, moves + Round(n.holder.value), r);
    } else {
      assert moves + [] == moves;
      OneRoundRenews(limits, moves, r);
    }
  }
}
