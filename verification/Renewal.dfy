/** front/src/shared/api/client.ts: one renewal at a time across tabs.

    Any number of requests, in any number of tabs, share a cookie jar and a Web
    Lock, and meet the session store step by step, their own steps mingling in
    any order; nobody else signs in or out meanwhile. With no answer lost the protocol never shows the server a spent token; with
    answers lost the server's grace carries it, for exactly as long as it lasts. */
module Renewal {
  import opened Types
  import opened RefreshStore

  /** The readable and the secret cookie of one issue. */
  datatype Pair = Pair(csrf: nat, refresh: Token)

  datatype Phase =
    | Sent(sentWith: Option<nat>)
    | Waiting(stale: Option<nat>)
    | WaitingToRotate
    | Holding(stale: Option<nat>)
    | HoldingToRotate
    | Posted(pair: Pair)
    | Presenting(pair: Pair)
    | Judged(pair: Pair, outcome: Outcome)
    | Saving(made: Token)
    | Answering(answer: Option<Pair>)
    | Done(renewed: bool)

  /** `made` is the number the next issue gets; `posts` are the CSRF values
      renewals went out with; `lost` counts answers that never arrived. */
  datatype Net = Net(store: World, jar: Option<Pair>, holder: Option<nat>, requests: map<nat, Phase>,
                     made: nat, posts: seq<nat>, lost: nat)

  datatype Move =
    | Send(r: nat)
    | Refused(r: nat)
    | WantRotation(r: nat)
    | Acquire(r: nat)
    | Decide(r: nat)
    | Present(r: nat)
    | Judge(r: nat)
    | Revoke(r: nat)
    | StartSave(r: nat)
    | EndSave(r: nat)
    | Deliver(r: nat)
    | Lose(r: nat)
    | Pass(time: nat)

  /** How long tokens live and how long a spent one is forgiven. */
  datatype Limits = Limits(ttl: nat, grace: nat)

  function Csrf(jar: Option<Pair>): Option<nat> {
    if jar.Some? then Some(jar.value.csrf) else None
  }

  predicate At(n: Net, r: nat) {
    r in n.requests
  }

  function Put(n: Net, r: nat, phase: Phase): Net {
    n.(requests := n.requests[r := phase])
  }

  /** Leaves the lock. */
  function Finished(n: Net, r: nat, renewed: bool): Net {
    Put(n, r, Done(renewed)).(holder := None)
  }

  /** Inside the lock: nothing to echo, somebody else was first, or the POST goes out. */
  function Decided(n: Net, r: nat, stale: Option<nat>, onPurpose: bool): Net {
    if n.jar.None? then Finished(n, r, false)
    else if !onPurpose && Csrf(n.jar) != stale then Finished(n, r, true)
    else Put(n, r, Posted(n.jar.value)).(posts := n.posts + [n.jar.value.csrf])
  }

  /** No token that the browser has, or is about to get, runs out. */
  predicate Outlives(n: Net, now: int) {
    && (n.jar.Some? ==> LivesPast(n.store, n.jar.value.refresh, now))
    && (forall r :: r in n.requests && n.requests[r].Answering? && n.requests[r].answer.Some?
          ==> LivesPast(n.store, n.requests[r].answer.value.refresh, now))
  }

  predicate LivesPast(w: World, token: Token, now: int) {
    var fate := FateOf(w.log, token);
    fate.Held? ==> now < fate.expiry
  }

  /** A move that is not possible is no move. */
  function Next(n: Net, limits: Limits, move: Move): Net {
    match move
    case Pass(time) =>
      if Outlives(n, n.store.now + time) then n.(store := Step(n.store, Tick(time))) else n
    case Send(r) => if At(n, r) then n else Put(n, r, Sent(Csrf(n.jar)))
    case WantRotation(r) => if At(n, r) then n else Put(n, r, WaitingToRotate)
    case Refused(r) =>
      if At(n, r) && n.requests[r].Sent? then Put(n, r, Waiting(n.requests[r].sentWith)) else n
    case Acquire(r) =>
      if n.holder.Some? || !At(n, r) then n
      else if n.requests[r].Waiting? then Put(n, r, Holding(n.requests[r].stale)).(holder := Some(r))
      else if n.requests[r].WaitingToRotate? then Put(n, r, HoldingToRotate).(holder := Some(r))
      else n
    case Decide(r) =>
      if !At(n, r) || n.holder != Some(r) then n
      else if n.requests[r].Holding? then Decided(n, r, n.requests[r].stale, false)
      else if n.requests[r].HoldingToRotate? then Decided(n, r, None, true)
      else n
    case Present(r) =>
      if At(n, r) && n.requests[r].Posted? then
        Put(n, r, Presenting(n.requests[r].pair))
          .(store := Step(n.store, Begin(r, Consume(n.requests[r].pair.refresh, limits.grace))))
      else n
    case Judge(r) =>
      if At(n, r) && n.requests[r].Presenting? then
        var store := Step(n.store, Finish(r));
        Put(n, r, Judged(n.requests[r].pair, Last(store))).(store := store)
      else n
    case Revoke(r) =>
      if At(n, r) && n.requests[r].Judged? && n.requests[r].outcome == Unknown then
        Put(n, r, Answering(None)).(store := Step(n.store, RevokeAll))
      else n
    case StartSave(r) =>
      if At(n, r) && n.requests[r].Judged? && n.requests[r].outcome != Unknown then
        Put(n, r, Saving(n.made)).(store := Step(n.store, Begin(r, Save(n.made, limits.ttl))), made := n.made + 1)
      else n
    case EndSave(r) =>
      if At(n, r) && n.requests[r].Saving? then
        var made := n.requests[r].made;
        Put(n, r, Answering(Some(Pair(made, made)))).(store := Step(n.store, Finish(r)))
      else n
    case Deliver(r) =>
      if At(n, r) && n.requests[r].Answering? && n.holder == Some(r) then
        Finished(n.(jar := n.requests[r].answer), r, n.requests[r].answer.Some?)
      else n
    case Lose(r) =>
      if At(n, r) && n.holder == Some(r) && PostedYet(n.requests[r]) then n.(holder := None, lost := n.lost + 1) else n
  }

  predicate PostedYet(phase: Phase) {
    phase.Posted? || phase.Presenting? || phase.Judged? || phase.Saving? || phase.Answering?
  }

  predicate InLock(phase: Phase) {
    phase.Holding? || phase.HoldingToRotate? || PostedYet(phase)
  }

  /** The store and the browser right after signing in. */
  function SignedIn(limits: Limits): Net {
    Net(Step(Step(NEW_ACCOUNT, Begin(0, Save(0, limits.ttl))), Finish(0)), Some(Pair(0, 0)), None, map[], 1, [], 0)
  }

  function Run(limits: Limits, moves: seq<Move>): Net {
    if |moves| == 0 then SignedIn(limits) else Next(Run(limits, moves[..|moves| - 1]), limits, moves[|moves| - 1])
  }

  // ---------- what always holds ----------

  /** Nobody has revoked the account. */
  predicate Calm(n: Net) {
    n.store.keys.generation == 0
  }

  predicate Usable(w: World, token: Token, grace: nat) {
    var fate := FateOf(w.log, token);
    || (fate.Held? && fate.generation == 0 && w.now < fate.expiry)
    || (fate.Spent? && fate.generation == 0 && fate.grace == grace)
  }

  predicate UsedUp(w: World, token: Token, grace: nat) {
    FateOf(w.log, token).Spent? && Usable(w, token, grace)
  }

  predicate InFlight(w: World, token: Token) {
    FateOf(w.log, token).Held? && Usable(w, token, 0)
  }

  /** What the store remembers of a request between its two steps. */
  ghost predicate PendingAgrees(n: Net, limits: Limits, r: nat) {
    && (r in n.store.pending <==> At(n, r) && (n.requests[r].Presenting? || n.requests[r].Saving?))
    && (r in n.store.pending ==>
          var p := n.store.pending[r];
          && (Calm(n) ==> p.generation == 0)
          && p.request == if n.requests[r].Presenting? then Consume(n.requests[r].pair.refresh, limits.grace)
                          else Save(n.requests[r].made, limits.ttl))
  }

  ghost predicate RequestOK(n: Net, limits: Limits, r: nat)
    requires r in n.requests
  {
    match n.requests[r]
    case Posted(pair) => n.jar == Some(pair) || UsedUp(n.store, pair.refresh, limits.grace)
    case Presenting(pair) => n.jar == Some(pair) || UsedUp(n.store, pair.refresh, limits.grace)
    case Answering(answer) =>
      && answer.Some? && n.jar.Some? && answer.value.refresh != n.jar.value.refresh
      && InFlight(n.store, answer.value.refresh)
    case _ => true
  }

  ghost predicate AnswersApart(n: Net) {
    forall q, r :: q in n.requests && r in n.requests && q != r && n.requests[q].Answering? && n.requests[r].Answering?
      && n.requests[q].answer.Some? && n.requests[r].answer.Some?
      ==> n.requests[q].answer.value.refresh != n.requests[r].answer.value.refresh
  }

  /** Whoever holds the lock presents the token the browser has, and that token
      is used up once the store has judged it. */
  ghost predicate HolderOK(n: Net, limits: Limits)
    requires n.jar.Some?
  {
    n.holder.Some? ==>
      && At(n, n.holder.value) && InLock(n.requests[n.holder.value])
      && match n.requests[n.holder.value]
         case Posted(pair) => n.jar == Some(pair)
         case Presenting(pair) => n.jar == Some(pair)
         case Judged(_, outcome) => outcome == Unknown || UsedUp(n.store, n.jar.value.refresh, limits.grace)
         case Saving(_) => UsedUp(n.store, n.jar.value.refresh, limits.grace)
         case Answering(_) => UsedUp(n.store, n.jar.value.refresh, limits.grace)
         case _ => true
  }

  ghost predicate BrowserOK(n: Net, limits: Limits) {
    && n.jar.Some? && Usable(n.store, n.jar.value.refresh, limits.grace) && HolderOK(n, limits)
    && (forall r :: r in n.requests ==> RequestOK(n, limits, r))
    && AnswersApart(n)
  }

  ghost predicate Base(n: Net, limits: Limits) {
    && Inv(n.store)
    && (forall t: Token :: Issued(n.store.log, t) ==> t < n.made)
    && (forall r {:trigger PendingAgrees(n, limits, r)} :: PendingAgrees(n, limits, r))
    && (Calm(n) ==> BrowserOK(n, limits))
  }

  // ---------- keeping the base ----------

  /** A move of the browser alone. */
  lemma BrowserMoveKeeps(n: Net, after: Net, limits: Limits, r: nat)
    requires Base(n, limits) && after.store == n.store && after.made == n.made && after.jar == n.jar
    requires r in after.requests && after.requests == n.requests[r := after.requests[r]]
    requires after.requests[r].Posted? ==> Some(after.requests[r].pair) == n.jar
    requires !after.requests[r].Presenting? && !after.requests[r].Saving? && !after.requests[r].Answering?
    requires r in n.requests ==> !n.requests[r].Presenting? && !n.requests[r].Saving?
    requires Calm(n) ==> HolderOK(after, limits)
    ensures Base(after, limits)
  {
    forall q
      ensures PendingAgrees(after, limits, q)
    {
      assert PendingAgrees(n, limits, q);
    }
    if Calm(after) {
      forall q | q in after.requests
        ensures RequestOK(after, limits, q)
      {
        assert q in n.requests ==> RequestOK(n, limits, q);
      }
    }
  }

  ghost predicate FateKept(w: World, after: World, t: Token) {
    FateOf(after.log, t) == FateOf(w.log, t) && (Issued(after.log, t) <==> Issued(w.log, t))
  }

  /** The store moved on without changing what it thinks of any token but one. */
  ghost predicate OnlyMoves(w: World, after: World, token: Token) {
    && Inv(after) && after.now == w.now && after.keys.generation == w.keys.generation
    && (forall t {:trigger FateKept(w, after, t)} :: t != token ==> FateKept(w, after, t))
  }

  /** One request entered a new phase, and perhaps one token met its fate. */
  lemma BrowserStays(n: Net, after: Net, limits: Limits, r: nat, token: Token)
    requires BrowserOK(n, limits) && after.jar == n.jar && after.holder == n.holder && OnlyMoves(n.store, after.store, token)
    requires n.holder == Some(r) ==> HolderOK(after, limits)
    requires r in after.requests && after.requests == n.requests[r := after.requests[r]]
    requires RequestOK(after, limits, r)
    requires Usable(n.store, token, limits.grace) ==> FateKept(n.store, after.store, token) || UsedUp(after.store, token, limits.grace)
    requires forall q :: q in n.requests && q != r && n.requests[q].Answering? ==> n.requests[q].answer.value.refresh != token
    requires after.requests[r].Answering? ==>
               forall q :: q in n.requests && q != r && n.requests[q].Answering?
                 ==> n.requests[q].answer.value.refresh != after.requests[r].answer.value.refresh
    ensures BrowserOK(after, limits)
  {
    var jar := n.jar.value.refresh;
    assert jar != token ==> FateKept(n.store, after.store, jar);
    forall q | q in after.requests && q != r
      ensures RequestOK(after, limits, q)
    {
      assert RequestOK(n, limits, q);
      match n.requests[q]
      case Posted(pair) => assert pair.refresh != token ==> FateKept(n.store, after.store, pair.refresh);
      case Presenting(pair) => assert pair.refresh != token ==> FateKept(n.store, after.store, pair.refresh);
      case Answering(answer) => assert FateKept(n.store, after.store, answer.value.refresh);
      case _ =>
    }
  }

  /** What the store has pending follows the phase of the one request that moved. */
  lemma PendingStays(n: Net, after: Net, limits: Limits, r: nat)
    requires forall q {:trigger PendingAgrees(n, limits, q)} :: PendingAgrees(n, limits, q)
    requires r in after.requests && after.requests == n.requests[r := after.requests[r]]
    requires after.store.keys.generation >= n.store.keys.generation
    requires after.store.pending - {r} == n.store.pending - {r}
    requires PendingAgrees(after, limits, r)
    ensures forall q {:trigger PendingAgrees(after, limits, q)} :: PendingAgrees(after, limits, q)
  {
    forall q
      ensures PendingAgrees(after, limits, q)
    {
      assert PendingAgrees(n, limits, q);
      if q != r {
        assert q in after.store.pending - {r} <==> q in after.store.pending;
        assert q in n.store.pending - {r} <==> q in n.store.pending;
        assert q in n.store.pending ==> (after.store.pending - {r})[q] == (n.store.pending - {r})[q];
      }
    }
  }

  lemma PresentStore(n: Net, limits: Limits, r: nat)
    requires Base(n, limits) && At(n, r) && n.requests[r].Posted?
    ensures var after := Next(n, limits, Present(r));
            && OnlyMoves(n.store, after.store, n.made)
            && (forall t :: FateKept(n.store, after.store, t))
            && after.store.pending == n.store.pending[r := after.store.pending[r]]
            && PendingAgrees(after, limits, r)
  {
    var after := Next(n, limits, Present(r));
    assert PendingAgrees(n, limits, r);
    forall t
      ensures FateKept(n.store, after.store, t)
    {
      BeginEffect(n.store, r, Consume(n.requests[r].pair.refresh, limits.grace), t);
    }
    BeginEffect(n.store, r, Consume(n.requests[r].pair.refresh, limits.grace), 0);
  }

  lemma IssuedStays(n: Net, after: Net)
    requires forall t: Token :: Issued(n.store.log, t) ==> t < n.made
    requires forall t :: FateKept(n.store, after.store, t)
    requires after.made == n.made
    ensures forall t: Token :: Issued(after.store.log, t) ==> t < after.made
  {
    forall t: Token | Issued(after.store.log, t)
      ensures t < after.made
    {
      assert FateKept(n.store, after.store, t);
    }
  }

  lemma PresentBrowser(n: Net, limits: Limits, r: nat)
    requires Base(n, limits) && At(n, r) && n.requests[r].Posted? && Calm(n)
    ensures BrowserOK(Next(n, limits, Present(r)), limits)
  {
    var after := Next(n, limits, Present(r));
    PresentStore(n, limits, r);
    NewTokenIsNotInFlight(n, limits, r);
    assert RequestOK(n, limits, r) && FateKept(n.store, after.store, n.requests[r].pair.refresh);
    assert FateKept(n.store, after.store, n.jar.value.refresh);
    BrowserStays(n, after, limits, r, n.made);
  }

  lemma PresentKeeps(n: Net, limits: Limits, r: nat)
    requires Base(n, limits) && At(n, r) && n.requests[r].Posted?
    ensures Base(Next(n, limits, Present(r)), limits)
  {
    var after := Next(n, limits, Present(r));
    PresentStore(n, limits, r);
    PendingStays(n, after, limits, r);
    IssuedStays(n, after);
    if Calm(n) {
      PresentBrowser(n, limits, r);
    }
  }

  /** The next number is nobody's. */
  lemma NewTokenIsNotInFlight(n: Net, limits: Limits, r: nat)
    requires Base(n, limits)
    ensures FateOf(n.store.log, n.made) == Unissued
    ensures Calm(n) ==> forall q :: q in n.requests && n.requests[q].Answering? ==> n.requests[q].answer.value.refresh != n.made
  {
    UnissuedYet(n.store.log, n.made);
    if Calm(n) {
      forall q | q in n.requests && n.requests[q].Answering?
        ensures n.requests[q].answer.value.refresh != n.made
      {
        assert RequestOK(n, limits, q);
      }
    }
  }

  lemma JudgeStore(n: Net, limits: Limits, r: nat)
    requires Base(n, limits) && At(n, r) && n.requests[r].Presenting?
    ensures var after, token := Next(n, limits, Judge(r)), n.requests[r].pair.refresh;
            && OnlyMoves(n.store, after.store, token)
            && (forall t: Token :: Issued(after.store.log, t) ==> t < n.made)
            && after.store.pending == n.store.pending - {r}
            && PendingAgrees(after, limits, r)
            && (Calm(n) ==>
                  && after.requests[r].outcome == Verdict(FateOf(n.store.log, token), 0, n.store.now)
                  && FateOf(after.store.log, token)
                     == if after.requests[r].outcome == Valid then Spent(0, n.store.now, limits.grace) else FateOf(n.store.log, token))
  {
    var after, token := Next(n, limits, Judge(r)), n.requests[r].pair.refresh;
    assert PendingAgrees(n, limits, r);
    forall t
      ensures t != token ==> FateKept(n.store, after.store, t)
      ensures Issued(after.store.log, t) <==> Issued(n.store.log, t)
    {
      ConsumeEffect(n.store, r, t);
    }
    ConsumeEffect(n.store, r, token);
  }

  lemma JudgeKeeps(n: Net, limits: Limits, r: nat)
    requires Base(n, limits) && At(n, r) && n.requests[r].Presenting?
    ensures Base(Next(n, limits, Judge(r)), limits)
  {
    var after, token := Next(n, limits, Judge(r)), n.requests[r].pair.refresh;
    JudgeStore(n, limits, r);
    PendingStays(n, after, limits, r);
    if Calm(after) {
      assert RequestOK(n, limits, r);
      forall q | q in n.requests && q != r && n.requests[q].Answering?
        ensures n.requests[q].answer.value.refresh != token
      {
        assert RequestOK(n, limits, q);
      }
      BrowserStays(n, after, limits, r, token);
    }
  }

  lemma RevokeKeepsBase(n: Net, limits: Limits, r: nat)
    requires Base(n, limits) && At(n, r) && n.requests[r].Judged? && n.requests[r].outcome == Unknown
    ensures Base(Next(n, limits, Revoke(r)), limits) && !Calm(Next(n, limits, Revoke(r)))
  {
    var after := Next(n, limits, Revoke(r));
    RevokeKeeps(n.store);
    Grown(n.store.log, Revoked);
    forall t: Token
      ensures FateKept(n.store, after.store, t)
    {
      IssuedGrows(n.store.log, Revoked, t);
    }
    IssuedStays(n, after);
    assert PendingAgrees(n, limits, r);
    PendingStays(n, after, limits, r);
  }

  lemma StartSaveStore(n: Net, limits: Limits, r: nat)
    requires Base(n, limits) && At(n, r) && n.requests[r].Judged? && n.requests[r].outcome != Unknown
    ensures var after := Next(n, limits, StartSave(r));
            && OnlyMoves(n.store, after.store, n.made)
            && (forall t: Token :: Issued(after.store.log, t) ==> t < after.made)
            && after.store.pending == n.store.pending[r := after.store.pending[r]]
            && PendingAgrees(after, limits, r)
  {
    var after, request := Next(n, limits, StartSave(r)), Save(n.made, limits.ttl);
    assert PendingAgrees(n, limits, r);
    forall t
      ensures t != n.made ==> FateKept(n.store, after.store, t)
      ensures Issued(after.store.log, t) <==> Issued(n.store.log, t) || t == n.made
    {
      BeginEffect(n.store, r, request, t);
    }
    BeginEffect(n.store, r, request, 0);
  }

  lemma StartSaveBrowser(n: Net, limits: Limits, r: nat)
    requires Base(n, limits) && At(n, r) && n.requests[r].Judged? && n.requests[r].outcome != Unknown && Calm(n)
    ensures BrowserOK(Next(n, limits, StartSave(r)), limits)
  {
    var after := Next(n, limits, StartSave(r));
    StartSaveStore(n, limits, r);
    NewTokenIsNotInFlight(n, limits, r);
    assert FateKept(n.store, after.store, n.jar.value.refresh);
    BrowserStays(n, after, limits, r, n.made);
  }

  lemma StartSaveKeeps(n: Net, limits: Limits, r: nat)
    requires Base(n, limits) && At(n, r) && n.requests[r].Judged? && n.requests[r].outcome != Unknown
    ensures Base(Next(n, limits, StartSave(r)), limits)
  {
    StartSaveStore(n, limits, r);
    PendingStays(n, Next(n, limits, StartSave(r)), limits, r);
    if Calm(n) {
      StartSaveBrowser(n, limits, r);
    }
  }

  lemma EndSaveStore(n: Net, limits: Limits, r: nat)
    requires Base(n, limits) && At(n, r) && n.requests[r].Saving?
    ensures var after, made := Next(n, limits, EndSave(r)), n.requests[r].made;
            && OnlyMoves(n.store, after.store, made)
            && (forall t: Token :: Issued(after.store.log, t) ==> t < n.made)
            && after.store.pending == n.store.pending - {r}
            && PendingAgrees(after, limits, r)
            && FateOf(n.store.log, made).Coming?
            && (Calm(n) ==> FateOf(after.store.log, made) == Held(0, n.store.now + limits.ttl))
  {
    var after, made := Next(n, limits, EndSave(r)), n.requests[r].made;
    assert PendingAgrees(n, limits, r);
    forall t
      ensures t != made ==> FateKept(n.store, after.store, t)
      ensures Issued(after.store.log, t) <==> Issued(n.store.log, t)
    {
      StoreEffect(n.store, r, t);
    }
    StoreEffect(n.store, r, made);
  }

  lemma EndSaveKeeps(n: Net, limits: Limits, r: nat)
    requires Base(n, limits) && At(n, r) && n.requests[r].Saving? && limits.ttl > 0
    ensures Base(Next(n, limits, EndSave(r)), limits)
  {
    EndSaveStore(n, limits, r);
    PendingStays(n, Next(n, limits, EndSave(r)), limits, r);
    if Calm(n) {
      EndSaveBrowser(n, limits, r);
    }
  }

  lemma EndSaveBrowser(n: Net, limits: Limits, r: nat)
    requires Base(n, limits) && At(n, r) && n.requests[r].Saving? && limits.ttl > 0 && Calm(n)
    ensures BrowserOK(Next(n, limits, EndSave(r)), limits)
  {
    var made := n.requests[r].made;
    EndSaveStore(n, limits, r);
    forall q | q in n.requests && q != r && n.requests[q].Answering?
      ensures n.requests[q].answer.value.refresh != made
    {
      assert RequestOK(n, limits, q);
    }
    BrowserStays(n, Next(n, limits, EndSave(r)), limits, r, made);
  }

  lemma DeliverKeeps(n: Net, limits: Limits, r: nat)
    requires Base(n, limits) && At(n, r) && n.requests[r].Answering? && n.holder == Some(r)
    ensures Base(Next(n, limits, Deliver(r)), limits)
  {
    var after := Next(n, limits, Deliver(r));
    assert PendingAgrees(n, limits, r);
    PendingStays(n, after, limits, r);
    if Calm(after) {
      assert RequestOK(n, limits, r);
      forall q | q in after.requests
        ensures RequestOK(after, limits, q)
      {
        assert RequestOK(n, limits, q);
      }
    }
  }

  lemma PassKeeps(n: Net, limits: Limits, time: nat)
    requires Base(n, limits)
    ensures Base(Next(n, limits, Pass(time)), limits)
  {
    var after := Next(n, limits, Pass(time));
    TickKeeps(n.store, time);
    forall r
      ensures PendingAgrees(after, limits, r)
    {
      assert PendingAgrees(n, limits, r);
    }
    if Calm(after) {
      forall r | r in after.requests
        ensures RequestOK(after, limits, r)
      {
        assert RequestOK(n, limits, r);
      }
    }
  }

  lemma LoseKeeps(n: Net, limits: Limits, r: nat)
    requires Base(n, limits)
    ensures Base(Next(n, limits, Lose(r)), limits)
  {
    var after := Next(n, limits, Lose(r));
    forall q
      ensures PendingAgrees(after, limits, q)
    {
      assert PendingAgrees(n, limits, q);
    }
    if Calm(after) {
      forall q | q in after.requests
        ensures RequestOK(after, limits, q)
      {
        assert RequestOK(n, limits, q);
      }
    }
  }

  predicate BrowserMove(move: Move) {
    move.Send? || move.Refused? || move.WantRotation? || move.Acquire? || move.Decide?
  }

  lemma BrowserMovesKeep(n: Net, limits: Limits, move: Move)
    requires Base(n, limits) && BrowserMove(move)
    ensures Base(Next(n, limits, move), limits)
  {
    var after := Next(n, limits, move);
    if after != n {
      BrowserMoveKeeps(n, after, limits, move.r);
    }
  }

  lemma NextKeepsBase(n: Net, limits: Limits, move: Move)
    requires Base(n, limits) && limits.ttl > 0
    ensures Base(Next(n, limits, move), limits)
  {
    if BrowserMove(move) {
      BrowserMovesKeep(n, limits, move);
    } else if Next(n, limits, move) != n {
      match move
      case Present(r) => PresentKeeps(n, limits, r);
      case Judge(r) => JudgeKeeps(n, limits, r);
      case Revoke(r) => RevokeKeepsBase(n, limits, r);
      case StartSave(r) => StartSaveKeeps(n, limits, r);
      case EndSave(r) => EndSaveKeeps(n, limits, r);
      case Deliver(r) => DeliverKeeps(n, limits, r);
      case Lose(r) => LoseKeeps(n, limits, r);
      case Pass(time) => PassKeeps(n, limits, time);
      case _ =>
    }
  }

  lemma FirstSave(w: World, c: nat, first: Token, ttl: nat)
    requires Inv(w) && w.pending == map[] && MayBegin(w, c, Save(first, ttl))
    ensures var after := Step(Step(w, Begin(c, Save(first, ttl))), Finish(c));
            && Inv(after) && after.pending == map[] && after.keys.generation == w.keys.generation && after.now == w.now
            && (forall t :: Issued(after.log, t) <==> Issued(w.log, t) || t == first)
            && FateOf(after.log, first) == Held(w.keys.generation, w.now + ttl)
  {
    var mid := Step(w, Begin(c, Save(first, ttl)));
    var after := Step(mid, Finish(c));
    forall t
      ensures Issued(after.log, t) <==> Issued(w.log, t) || t == first
    {
      SavedToken(w, mid, after, c, first, ttl, t);
    }
    SavedToken(w, mid, after, c, first, ttl, first);
  }

  lemma SavedToken(w: World, mid: World, after: World, c: nat, first: Token, ttl: nat, t: Token)
    requires Inv(w) && w.pending == map[] && MayBegin(w, c, Save(first, ttl))
    requires mid == Step(w, Begin(c, Save(first, ttl))) && after == Step(mid, Finish(c))
    ensures Inv(after) && after.pending == map[] && after.keys.generation == w.keys.generation && after.now == w.now
    ensures Issued(after.log, t) <==> Issued(w.log, t) || t == first
    ensures t == first ==> FateOf(after.log, t) == Held(w.keys.generation, w.now + ttl)
  {
    BeginEffect(w, c, Save(first, ttl), t);
    SavedInStore(mid, after, c, t);
    assert mid.pending - {c} == map[];
  }

  lemma SavedInStore(mid: World, after: World, c: nat, t: Token)
    requires Inv(mid) && c in mid.pending && mid.pending[c].request.Save? && after == Step(mid, Finish(c))
    ensures Inv(after) && after.keys.generation == mid.keys.generation && after.now == mid.now
    ensures after.pending == mid.pending - {c}
    ensures Issued(after.log, t) <==> Issued(mid.log, t)
    ensures t == mid.pending[c].request.token
            ==> FateOf(after.log, t) == Held(mid.pending[c].generation, mid.now + mid.pending[c].request.ttl)
  {
    StoreEffect(mid, c, t);
  }

  lemma SignedInBase(limits: Limits)
    requires limits.ttl > 0
    ensures Base(SignedIn(limits), limits)
  {
    NewAccountInv(NEW_ACCOUNT);
    FirstSave(NEW_ACCOUNT, 0, 0, limits.ttl);
    BaseFromStore(SignedIn(limits), limits);
  }

  lemma BaseFromStore(n: Net, limits: Limits)
    requires Inv(n.store) && n.store.pending == map[] && n.requests == map[] && n.holder == None
    requires n.jar == Some(Pair(0, 0)) && n.made == 1 && forall t :: Issued(n.store.log, t) ==> t == 0
    requires Usable(n.store, 0, limits.grace)
    ensures Base(n, limits)
  {
    forall r
      ensures PendingAgrees(n, limits, r)
    {
    }
  }

  lemma {:induction false} EveryRunKeepsBase(limits: Limits, moves: seq<Move>)
    requires limits.ttl > 0
    ensures Base(Run(limits, moves), limits)
  {
    if |moves| == 0 {
      SignedInBase(limits);
    } else {
      EveryRunKeepsBase(limits, moves[..|moves| - 1]);
      NextKeepsBase(Run(limits, moves[..|moves| - 1]), limits, moves[|moves| - 1]);
    }
  }

  // ---------- no answer lost ----------

  predicate Judging(phase: Phase) {
    phase.Judged? || phase.Saving? || phase.Answering?
  }

  ghost predicate QuietRequest(n: Net, r: nat)
    requires r in n.requests && n.jar.Some?
  {
    && (InLock(n.requests[r]) ==> n.holder == Some(r))
    && match n.requests[r]
       case Judged(_, outcome) => outcome == Valid
       case Saving(made) => n.jar.value.csrf < made < n.made
       case Answering(answer) => answer.Some? && n.jar.value.csrf < answer.value.csrf < n.made
       case Done(renewed) => renewed
       case _ => true
  }

  ghost predicate AllValid(log: seq<Event>) {
    forall i :: 0 <= i < |log| && log[i].Answered? ==> log[i].outcome == Valid
  }

  /** No CSRF value goes out twice, and the one in the browser has not gone out
      unless its renewal is under way. */
  ghost predicate PostsOK(n: Net)
    requires n.jar.Some?
  {
    && (forall i, j :: 0 <= i < j < |n.posts| ==> n.posts[i] != n.posts[j])
    && (forall i :: 0 <= i < |n.posts| ==> n.posts[i] <= n.jar.value.csrf)
    && n.jar.value.csrf < n.made
    && (n.jar.value.csrf in n.posts ==> n.holder.Some? && At(n, n.holder.value) && PostedYet(n.requests[n.holder.value]))
  }

  ghost predicate Quiet(n: Net) {
    && Calm(n) && n.jar.Some?
    && (forall r :: r in n.requests ==> QuietRequest(n, r))
    && (FateOf(n.store.log, n.jar.value.refresh).Held?
        || (n.holder.Some? && At(n, n.holder.value) && Judging(n.requests[n.holder.value])))
    && AllValid(n.store.log)
    && PostsOK(n)
  }

  lemma QuietApproach(n: Net, limits: Limits, move: Move)
    requires Base(n, limits) && Quiet(n) && BrowserMove(move) && !move.Decide?
    ensures Quiet(Next(n, limits, move))
  {
    if move.Acquire? {
      QuietAcquire(n, limits, move.r);
    } else {
      var after := Next(n, limits, move);
      assert move.r in n.requests ==> QuietRequest(n, move.r);
      forall q | q in after.requests
        ensures QuietRequest(after, q)
      {
        assert q in n.requests ==> QuietRequest(n, q);
      }
    }
  }

  lemma QuietAcquire(n: Net, limits: Limits, r: nat)
    requires Quiet(n)
    ensures Quiet(Next(n, limits, Acquire(r)))
  {
    var after := Next(n, limits, Acquire(r));
    forall q | q in after.requests
      ensures QuietRequest(after, q)
    {
      assert QuietRequest(n, q);
    }
  }

  lemma QuietDecide(n: Net, limits: Limits, r: nat)
    requires Base(n, limits) && Quiet(n)
    ensures Quiet(Next(n, limits, Decide(r)))
  {
    var after := Next(n, limits, Decide(r));
    if after != n {
      assert QuietRequest(n, r);
      forall q | q in after.requests
        ensures QuietRequest(after, q)
      {
        assert QuietRequest(n, q);
      }
    }
  }

  lemma QuietBrowserMoves(n: Net, limits: Limits, move: Move)
    requires Base(n, limits) && Quiet(n) && BrowserMove(move)
    ensures Quiet(Next(n, limits, move))
  {
    if move.Decide? {
      QuietDecide(n, limits, move.r);
    } else {
      QuietApproach(n, limits, move);
    }
  }

  /** The request that holds the lock got one step further at the server. */
  lemma QuietServerMove(n: Net, after: Net, r: nat)
    requires Quiet(n) && r in n.requests && PostedYet(n.requests[r])
    requires after.jar == n.jar && after.holder == n.holder && after.posts == n.posts && after.made >= n.made
    requires r in after.requests && after.requests == n.requests[r := after.requests[r]] && PostedYet(after.requests[r])
    requires Calm(after) && AllValid(after.store.log)
    requires Judging(after.requests[r]) || FateOf(after.store.log, n.jar.value.refresh) == FateOf(n.store.log, n.jar.value.refresh)
    requires Judging(n.requests[r]) ==> Judging(after.requests[r])
    requires QuietRequest(after, r)
    ensures Quiet(after)
  {
    assert QuietRequest(n, r);
    forall q | q in after.requests
      ensures QuietRequest(after, q)
    {
      assert q in n.requests ==> QuietRequest(n, q);
    }
  }

  lemma AllValidGrows(log: seq<Event>, e: Event)
    requires AllValid(log) && (e.Answered? ==> e.outcome == Valid)
    ensures AllValid(log + [e])
  {
  }

  lemma QuietPresent(n: Net, limits: Limits, r: nat)
    requires Base(n, limits) && Quiet(n) && At(n, r) && n.requests[r].Posted?
    ensures Quiet(Next(n, limits, Present(r)))
  {
    var after := Next(n, limits, Present(r));
    PresentStore(n, limits, r);
    assert PendingAgrees(n, limits, r) && QuietRequest(n, r);
    assert FateKept(n.store, after.store, n.jar.value.refresh);
    AllValidGrows(n.store.log, Began(Consume(n.requests[r].pair.refresh, limits.grace), n.store.keys.generation));
    QuietServerMove(n, after, r);
  }

  lemma QuietJudge(n: Net, limits: Limits, r: nat)
    requires Base(n, limits) && Quiet(n) && At(n, r) && n.requests[r].Presenting?
    ensures Quiet(Next(n, limits, Judge(r)))
  {
    var after := Next(n, limits, Judge(r));
    assert QuietRequest(n, r);
    JudgedValid(n, limits, r);
    QuietServerMove(n, after, r);
  }

  lemma JudgedValid(n: Net, limits: Limits, r: nat)
    requires Base(n, limits) && Quiet(n) && At(n, r) && n.requests[r].Presenting?
    ensures var after := Next(n, limits, Judge(r));
            Calm(after) && after.requests[r].outcome == Valid && AllValid(after.store.log)
  {
    var after := Next(n, limits, Judge(r));
    assert PendingAgrees(n, limits, r);
    JudgeStore(n, limits, r);
    assert QuietRequest(n, r) && RequestOK(n, limits, r);
    JudgedLog(n, limits, r);
    AllValidGrows(n.store.log, after.store.log[|n.store.log|]);
  }

  /** The log of a judged presentation is longer by its answer. */
  lemma JudgedLog(n: Net, limits: Limits, r: nat)
    requires Inv(n.store) && PendingAgrees(n, limits, r) && At(n, r) && n.requests[r].Presenting?
    ensures var log, after := n.store.log, Next(n, limits, Judge(r));
            && |after.store.log| == |log| + 1 && after.store.log == log + [after.store.log[|log|]]
            && after.store.log[|log|].Answered? && after.store.log[|log|].outcome == after.requests[r].outcome
            && after.store.keys.generation == n.store.keys.generation
  {
    ConsumeEffect(n.store, r, 0);
  }

  lemma QuietStartSave(n: Net, limits: Limits, r: nat)
    requires Base(n, limits) && Quiet(n) && At(n, r) && n.requests[r].Judged?
    ensures Quiet(Next(n, limits, StartSave(r)))
  {
    var after := Next(n, limits, StartSave(r));
    assert QuietRequest(n, r);
    StartSaveStore(n, limits, r);
    assert PendingAgrees(n, limits, r);
    AllValidGrows(n.store.log, Began(Save(n.made, limits.ttl), n.store.keys.generation));
    QuietServerMove(n, after, r);
  }

  lemma QuietEndSave(n: Net, limits: Limits, r: nat)
    requires Base(n, limits) && Quiet(n) && At(n, r) && n.requests[r].Saving?
    ensures Quiet(Next(n, limits, EndSave(r)))
  {
    var after, made := Next(n, limits, EndSave(r)), n.requests[r].made;
    assert QuietRequest(n, r);
    EndSaveStore(n, limits, r);
    assert PendingAgrees(n, limits, r);
    AllValidGrows(n.store.log, Stored(made, n.store.pending[r].generation, n.store.now + limits.ttl));
    QuietServerMove(n, after, r);
  }

  lemma QuietDeliver(n: Net, limits: Limits, r: nat)
    requires Base(n, limits) && Quiet(n) && At(n, r) && n.requests[r].Answering? && n.holder == Some(r)
    ensures Quiet(Next(n, limits, Deliver(r)))
  {
    var after := Next(n, limits, Deliver(r));
    assert QuietRequest(n, r) && RequestOK(n, limits, r);
    forall q | q in after.requests
      ensures QuietRequest(after, q)
    {
      assert QuietRequest(n, q);
    }
  }

  lemma QuietPass(n: Net, limits: Limits, time: nat)
    requires Base(n, limits) && Quiet(n)
    ensures Quiet(Next(n, limits, Pass(time)))
  {
    var after := Next(n, limits, Pass(time));
    forall q | q in after.requests
      ensures QuietRequest(after, q)
    {
      assert QuietRequest(n, q);
    }
  }

  lemma NextKeepsQuiet(n: Net, limits: Limits, move: Move)
    requires Base(n, limits) && Quiet(n) && Next(n, limits, move).lost == n.lost
    ensures Quiet(Next(n, limits, move))
  {
    if BrowserMove(move) {
      QuietBrowserMoves(n, limits, move);
    } else if Next(n, limits, move) != n {
      match move
      case Present(r) => QuietPresent(n, limits, r);
      case Judge(r) => QuietJudge(n, limits, r);
      case Revoke(r) => NobodyRevokes(n, limits, r);
      case StartSave(r) => QuietStartSave(n, limits, r);
      case EndSave(r) => QuietEndSave(n, limits, r);
      case Deliver(r) => QuietDeliver(n, limits, r);
      case Pass(time) => QuietPass(n, limits, time);
      case _ =>
    }
  }

  lemma NobodyRevokes(n: Net, limits: Limits, r: nat)
    requires Quiet(n)
    ensures Next(n, limits, Revoke(r)) == n
  {
    assert r in n.requests ==> QuietRequest(n, r);
  }

  lemma LostOnlyGrows(n: Net, limits: Limits, move: Move)
    ensures Next(n, limits, move).lost >= n.lost
  {
  }

  lemma {:induction false} QuietRuns(limits: Limits, moves: seq<Move>)
    requires limits.ttl > 0 && Run(limits, moves).lost == 0
    ensures Quiet(Run(limits, moves))
  {
    if |moves| == 0 {
      SignedInBase(limits);
      SignedInQuiet(limits);
    } else {
      var earlier := moves[..|moves| - 1];
      LostOnlyGrows(Run(limits, earlier), limits, moves[|moves| - 1]);
      QuietRuns(limits, earlier);
      EveryRunKeepsBase(limits, earlier);
      NextKeepsQuiet(Run(limits, earlier), limits, moves[|moves| - 1]);
    }
  }

  lemma SignedInQuiet(limits: Limits)
    requires Base(SignedIn(limits), limits)
    ensures Quiet(SignedIn(limits))
  {
    SignedInFate(limits);
    SignedInHonest(limits);
    QuietFromFate(SignedIn(limits));
  }

  lemma SignedInFate(limits: Limits)
    ensures FateOf(SignedIn(limits).store.log, 0) == Held(0, limits.ttl)
  {
    NewAccountInv(NEW_ACCOUNT);
    FirstFate(NEW_ACCOUNT, SignedIn(limits).store, 0, 0, limits.ttl);
  }

  lemma FirstFate(w: World, after: World, c: nat, first: Token, ttl: nat)
    requires Inv(w) && w.pending == map[] && MayBegin(w, c, Save(first, ttl))
    requires after == Step(Step(w, Begin(c, Save(first, ttl))), Finish(c))
    ensures FateOf(after.log, first) == Held(w.keys.generation, w.now + ttl)
  {
    FirstSave(w, c, first, ttl);
  }

  lemma QuietFromFate(n: Net)
    requires Calm(n) && n.jar == Some(Pair(0, 0)) && n.requests == map[] && n.posts == [] && n.made == 1
    requires FateOf(n.store.log, 0).Held? && AllValid(n.store.log)
    ensures Quiet(n)
  {
  }

  /** With every answer delivered: no spent token is ever presented (each is
      found valid), no CSRF value is renewed twice, nothing is revoked, and
      nobody is told that the session is over. */
  lemma OneRenewalAtATime(limits: Limits, moves: seq<Move>)
    requires limits.ttl > 0 && Run(limits, moves).lost == 0
    ensures var n := Run(limits, moves);
            && (forall i :: 0 <= i < |n.store.log| && n.store.log[i].Answered? ==> n.store.log[i].outcome == Valid)
            && (forall i, j :: 0 <= i < j < |n.posts| ==> n.posts[i] != n.posts[j])
            && Revocations(n.store.log) == 0
            && (forall r :: r in n.requests && n.requests[r].Done? ==> n.requests[r].renewed)
  {
    QuietRuns(limits, moves);
    EveryRunKeepsBase(limits, moves);
    var n := Run(limits, moves);
    forall r | r in n.requests && n.requests[r].Done?
      ensures n.requests[r].renewed
    {
      assert QuietRequest(n, r);
    }
  }

  // ---------- answers lost ----------

  /** What is presented while nothing has been revoked is a token in force, or one spent. */
  ghost predicate PresentedOK(log: seq<Event>, limits: Limits, i: nat)
    requires i < |log|
  {
    log[i].Answered? && Revocations(log[..i]) == 0 ==>
      var fate := FateOf(log[..i], log[i].token);
      || (fate.Held? && fate.generation == log[i].generation && log[i].at < fate.expiry)
      || (fate.Spent? && fate.generation == log[i].generation && fate.grace == limits.grace)
  }

  ghost predicate AllPresentedOK(log: seq<Event>, limits: Limits) {
    forall i {:trigger PresentedOK(log, limits, i)} :: 0 <= i < |log| ==> PresentedOK(log, limits, i)
  }

  /** The account is only revoked on an answer of Unknown. */
  predicate SomeUnknown(log: seq<Event>, before: nat) {
    exists i :: 0 <= i < |log| && i < before && log[i].Answered? && log[i].outcome == Unknown
  }

  ghost predicate Caused(log: seq<Event>) {
    forall j :: 0 <= j < |log| && log[j].Revoked? ==> SomeUnknown(log, j)
  }

  ghost predicate Honest(n: Net, limits: Limits) {
    && AllPresentedOK(n.store.log, limits)
    && Caused(n.store.log)
    && (forall r :: r in n.requests && n.requests[r].Judged? && n.requests[r].outcome == Unknown
          ==> SomeUnknown(n.store.log, |n.store.log|))
  }

  lemma HonestGrows(log: seq<Event>, e: Event, limits: Limits)
    requires AllPresentedOK(log, limits) && Caused(log)
    requires e.Answered? ==> PresentedOK(log + [e], limits, |log|)
    requires e.Revoked? ==> SomeUnknown(log, |log|)
    ensures AllPresentedOK(log + [e], limits) && Caused(log + [e])
    ensures SomeUnknown(log, |log|) ==> SomeUnknown(log + [e], |log|)
    ensures e.Answered? && e.outcome == Unknown ==> SomeUnknown(log + [e], |log| + 1)
  {
    var longer := log + [e];
    forall i | 0 <= i < |log|
      ensures PresentedOK(longer, limits, i)
    {
      assert longer[..i] == log[..i] && longer[i] == log[i];
      assert PresentedOK(log, limits, i);
    }
    forall j | 0 <= j < |longer| && longer[j].Revoked?
      ensures SomeUnknown(longer, j)
    {
      assert j < |log| ==> log[j].Revoked?;
      UnknownStays(log, e, j);
    }
    UnknownStays(log, e, |log|);
    if e.Answered? && e.outcome == Unknown {
      assert longer[|log|] == e;
    }
  }

  lemma UnknownStays(log: seq<Event>, e: Event, before: nat)
    ensures SomeUnknown(log, before) ==> SomeUnknown(log + [e], before)
  {
    if SomeUnknown(log, before) {
      var i :| 0 <= i < |log| && i < before && log[i].Answered? && log[i].outcome == Unknown;
      assert (log + [e])[i] == log[i];
    }
  }

  /** The log after a move: the same, or one event longer. */
  lemma MoveLogs(n: Net, limits: Limits, move: Move)
    requires Base(n, limits)
    ensures var log, after := n.store.log, Next(n, limits, move);
            || after.store.log == log
            || (|after.store.log| == |log| + 1 && after.store.log == log + [after.store.log[|log|]]
                && (after.store.log[|log|].Answered? ==> move.Judge? && At(n, move.r) && n.requests[move.r].Presenting?)
                && (after.store.log[|log|].Revoked? ==> move.Revoke? && At(n, move.r) && n.requests[move.r].Judged?
                                                        && n.requests[move.r].outcome == Unknown))
  {
    if move.Judge? || move.EndSave? {
      assert PendingAgrees(n, limits, move.r);
    }
  }

  lemma JudgedIsPresentedOK(n: Net, limits: Limits, r: nat)
    requires Base(n, limits) && At(n, r) && n.requests[r].Presenting?
    ensures var log, after := n.store.log, Next(n, limits, Judge(r));
            && |after.store.log| == |log| + 1
            && PresentedOK(after.store.log, limits, |log|)
            && after.store.log[|log|].Answered? && after.store.log[|log|].outcome == after.requests[r].outcome
  {
    assert PendingAgrees(n, limits, r);
    ConsumeEffect(n.store, r, 0);
    var log, after := n.store.log, Next(n, limits, Judge(r));
    assert after.store.log[..|log|] == log;
    if Calm(n) {
      assert RequestOK(n, limits, r);
    }
  }

  lemma NextKeepsHonest(n: Net, limits: Limits, move: Move)
    requires Base(n, limits) && Honest(n, limits)
    ensures Honest(Next(n, limits, move), limits)
  {
    var log, after := n.store.log, Next(n, limits, move);
    MoveLogs(n, limits, move);
    if move.Judge? && At(n, move.r) && n.requests[move.r].Presenting? {
      JudgedIsPresentedOK(n, limits, move.r);
    }
    if after.store.log != log {
      HonestGrows(log, after.store.log[|log|], limits);
      LaterUnknown(log, after.store.log[|log|]);
    }
  }

  lemma LaterUnknown(log: seq<Event>, e: Event)
    ensures SomeUnknown(log, |log|) ==> SomeUnknown(log + [e], |log| + 1)
  {
    if SomeUnknown(log, |log|) {
      var i :| 0 <= i < |log| && log[i].Answered? && log[i].outcome == Unknown;
      assert (log + [e])[i] == log[i];
    }
  }

  lemma {:induction false} HonestRuns(limits: Limits, moves: seq<Move>)
    requires limits.ttl > 0
    ensures Honest(Run(limits, moves), limits)
  {
    if |moves| == 0 {
      SignedInHonest(limits);
    } else {
      var earlier := moves[..|moves| - 1];
      HonestRuns(limits, earlier);
      EveryRunKeepsBase(limits, earlier);
      NextKeepsHonest(Run(limits, earlier), limits, moves[|moves| - 1]);
    }
  }

  lemma SignedInHonest(limits: Limits)
    ensures Honest(SignedIn(limits), limits) && AllValid(SignedIn(limits).store.log)
  {
    var w := Step(NEW_ACCOUNT, Begin(0, Save(0, limits.ttl)));
    assert SignedIn(limits).store.log == [Began(Save(0, limits.ttl), 0), Stored(0, 0, limits.ttl)];
  }

  /** The token had been spent, and the grace was over, or there was none. */
  ghost predicate Late(log: seq<Event>, limits: Limits, i: nat)
    requires i < |log| && log[i].Answered?
  {
    exists f :: 0 <= f < i && Answer(log, f, log[i].token, Valid) && (limits.grace == 0 || log[i].at >= log[f].at + limits.grace)
  }

  /** With answers lost and requests asking again: as long as nothing has been
      revoked, a presented token is refused exactly when it was spent a whole
      grace or more ago. Within the grace it still gets a fresh pair. */
  lemma GraceCarriesLostAnswers(limits: Limits, moves: seq<Move>, i: nat)
    requires limits.ttl > 0
    requires var log := Run(limits, moves).store.log;
             i < |log| && log[i].Answered? && Revocations(log[..i]) == 0
    ensures Run(limits, moves).store.log[i].outcome == Unknown <==> Late(Run(limits, moves).store.log, limits, i)
  {
    var log := Run(limits, moves).store.log;
    HonestRuns(limits, moves);
    EveryRunKeepsBase(limits, moves);
    LateIsUnknown(log, limits, i);
  }

  lemma LateIsUnknown(log: seq<Event>, limits: Limits, i: nat)
    requires LogOK(log) && AllPresentedOK(log, limits)
    requires i < |log| && log[i].Answered? && Revocations(log[..i]) == 0
    ensures log[i].outcome == Unknown <==> Late(log, limits, i)
  {
    assert EventOK(log, i) && PresentedOK(log, limits, i);
    var token := log[i].token;
    if log[i].outcome == Unknown {
      FateBegins(log, i, token);
      var f :| 0 <= f < i && log[f].Answered? && log[f].token == token && log[f].outcome == Valid
               && FateOf(log[..i], token) == Spent(log[f].generation, log[f].at, log[f].grace);
      assert Answer(log, f, token, Valid);
    }
    if Late(log, limits, i) {
      var f :| 0 <= f < i && Answer(log, f, token, Valid) && (limits.grace == 0 || log[i].at >= log[f].at + limits.grace);
      assert EventOK(log, f);
      FateAt(log, f, token);
      FateEnds(log, f + 1, i, token);
    }
  }

  lemma RunOn(limits: Limits, moves: seq<Move>, move: Move)
    ensures Run(limits, moves + [move]) == Next(Run(limits, moves), limits, move)
  {
    assert (moves + [move])[..|moves|] == moves;
  }

  lemma FreshPair(n: Net, limits: Limits, r: nat)
    requires Base(n, limits) && Calm(n) && At(n, r) && n.requests[r].Judged? && n.requests[r].outcome != Unknown
    ensures var done := Next(Next(n, limits, StartSave(r)), limits, EndSave(r));
            && At(done, r) && done.requests[r] == Answering(Some(Pair(n.made, n.made)))
            && FateOf(done.store.log, n.made) == Held(0, n.store.now + limits.ttl)
  {
    var mid := Next(n, limits, StartSave(r));
    StartSaveStore(n, limits, r);
    StartSaveKeeps(n, limits, r);
    SavedPair(mid, Next(mid, limits, EndSave(r)), limits, r);
  }

  lemma SavedPair(mid: Net, done: Net, limits: Limits, r: nat)
    requires Base(mid, limits) && Calm(mid) && At(mid, r) && mid.requests[r].Saving? && done == Next(mid, limits, EndSave(r))
    ensures var made := mid.requests[r].made;
            && At(done, r) && done.requests[r] == Answering(Some(Pair(made, made)))
            && FateOf(done.store.log, made) == Held(0, mid.store.now + limits.ttl)
  {
    EndSaveStore(mid, limits, r);
  }

  /** A presentation that was not refused is answered with a pair never handed
      out before, whose token the store holds for its whole lifetime. Here nobody
      comes between the two steps of the save; AnswersAreInForce says the same of
      the answer whoever does. */
  lemma ForgivenGetsAFreshPair(limits: Limits, moves: seq<Move>, r: nat)
    requires limits.ttl > 0 && Calm(Run(limits, moves)) && At(Run(limits, moves), r)
    requires Run(limits, moves).requests[r].Judged? && Run(limits, moves).requests[r].outcome != Unknown
    ensures var n, done := Run(limits, moves), Run(limits, moves + [StartSave(r)] + [EndSave(r)]);
            && At(done, r) && done.requests[r] == Answering(Some(Pair(n.made, n.made)))
            && !Issued(n.store.log, n.made)
            && FateOf(done.store.log, n.made) == Held(0, n.store.now + limits.ttl)
  {
    EveryRunKeepsBase(limits, moves);
    RunOn(limits, moves, StartSave(r));
    RunOn(limits, moves + [StartSave(r)], EndSave(r));
    FreshPair(Run(limits, moves), limits, r);
  }

  /** Whatever is on its way to a browser, as long as nothing is revoked, is a
      pair in force, other than the one the browser has. */
  lemma AnswersAreInForce(limits: Limits, moves: seq<Move>, r: nat)
    requires limits.ttl > 0 && Calm(Run(limits, moves)) && At(Run(limits, moves), r) && Run(limits, moves).requests[r].Answering?
    ensures var n := Run(limits, moves);
            var answer := n.requests[r].answer;
            answer.Some? && InFlight(n.store, answer.value.refresh)
            && n.jar.Some? && answer.value.refresh != n.jar.value.refresh
  {
    EveryRunKeepsBase(limits, moves);
    assert RequestOK(Run(limits, moves), limits, r);
  }

  /** The account is never revoked but for such a late presentation. */
  lemma RevokedOnlyForLateness(limits: Limits, moves: seq<Move>)
    requires limits.ttl > 0 && Revocations(Run(limits, moves).store.log) > 0
    ensures var log := Run(limits, moves).store.log;
            exists i :: 0 <= i < |log| && log[i].Answered? && Late(log, limits, i)
  {
    var log := Run(limits, moves).store.log;
    HonestRuns(limits, moves);
    EveryRunKeepsBase(limits, moves);
    var j := FirstRevoked(log);
    var i :| 0 <= i < |log| && i < j && log[i].Answered? && log[i].outcome == Unknown;
    RevocationsGrow(log, i, j);
    LateIsUnknown(log, limits, i);
  }

  lemma {:induction false} FirstRevoked(log: seq<Event>) returns (j: nat)
    requires Revocations(log) > 0
    ensures j < |log| && log[j].Revoked? && Revocations(log[..j]) == 0
  {
    var n := |log| - 1;
    if Revocations(log[..n]) > 0 {
      j := FirstRevoked(log[..n]);
      assert log[..n][..j] == log[..j];
    } else {
      j := n;
    }
  }
}
