/** back/internal/adapter/redis/refresh.go: the revocable half of a session.

    Save, Consume and Drop first read the account's generation and then, in a
    second step, touch the key that generation names; any other caller may come
    in between. The store is a machine of such small steps, and the history of
    what happened decides every answer it gives. */
module RefreshStore {
  import opened Types

  /** Token strings are opaque and never issued twice. */
  type Token = nat
  datatype Key = Key(generation: nat, token: Token)
  datatype Outcome = Unknown | Valid | JustRotated

  /** What Redis holds for one account: each key with the time it expires. */
  datatype Keys = Keys(generation: nat, tokens: map<Key, int>, markers: map<Key, int>)

  predicate Alive(entries: map<Key, int>, key: Key, now: int) {
    key in entries && now < entries[key]
  }

  function Put(keys: Keys, key: Key, ttl: int, now: int): Keys {
    keys.(tokens := keys.tokens[key := now + ttl])
  }

  /** consumeScript: one atomic step. */
  function Spend(keys: Keys, key: Key, grace: int, now: int): (Keys, Outcome) {
    if Alive(keys.tokens, key, now) then
      var left := keys.(tokens := keys.tokens - {key});
      (if grace > 0 then left.(markers := left.markers[key := now + grace]) else left, Valid)
    else if Alive(keys.markers, key, now) then (keys, JustRotated)
    else (keys, Unknown)
  }

  function Forget(keys: Keys, key: Key, now: int): Keys {
    if Alive(keys.tokens, key, now) then keys.(tokens := keys.tokens - {key}) else keys
  }

  // ---------- interleavings ----------

  datatype Request = Save(token: Token, ttl: int) | Consume(token: Token, grace: int) | Drop(token: Token)

  /** A caller between its two steps; `readAt` is when, in the log, it read the generation. */
  datatype Pending = Pending(request: Request, generation: nat, readAt: nat)

  datatype Event =
    | Began(request: Request, generation: nat)
    | Stored(token: Token, generation: nat, expiry: int)
    | Answered(readAt: nat, token: Token, generation: nat, outcome: Outcome, at: int, grace: int)
    | Dropped(readAt: nat, token: Token, generation: nat, live: bool, at: int)
    | Revoked

  datatype World = World(keys: Keys, now: int, pending: map<nat, Pending>, log: seq<Event>)

  datatype Label = Begin(caller: nat, request: Request) | Finish(caller: nat) | RevokeAll | Tick(passed: nat)

  predicate Issued(log: seq<Event>, token: Token) {
    exists i :: 0 <= i < |log| && log[i].Began? && log[i].request.Save? && log[i].request.token == token
  }

  /** A caller can begin when it has nothing under way; the tokens it saves are new. */
  predicate MayBegin(w: World, caller: nat, request: Request) {
    caller !in w.pending && (request.Save? ==> !Issued(w.log, request.token))
  }

  function Complete(w: World, p: Pending): World {
    var key := Key(p.generation, p.request.token);
    match p.request
    case Save(token, ttl) =>
      w.(keys := Put(w.keys, key, ttl, w.now), log := w.log + [Stored(token, p.generation, w.now + ttl)])
    case Consume(token, grace) =>
      var spent := Spend(w.keys, key, grace, w.now);
      w.(keys := spent.0, log := w.log + [Answered(p.readAt, token, p.generation, spent.1, w.now, grace)])
    case Drop(token) =>
      w.(keys := Forget(w.keys, key, w.now),
         log := w.log + [Dropped(p.readAt, token, p.generation, Alive(w.keys.tokens, key, w.now), w.now)])
  }

  function Step(w: World, step: Label): World {
    match step
    case Begin(caller, request) =>
      if !MayBegin(w, caller, request) then w
      else
        w.(pending := w.pending[caller := Pending(request, w.keys.generation, |w.log|)],
           log := w.log + [Began(request, w.keys.generation)])
    case Finish(caller) =>
      if caller !in w.pending then w else Complete(w.(pending := w.pending - {caller}), w.pending[caller])
    case RevokeAll =>
      w.(keys := w.keys.(generation := w.keys.generation + 1), log := w.log + [Revoked])
    case Tick(passed) => w.(now := w.now + passed)
  }

  const NEW_ACCOUNT := World(Keys(0, map[], map[]), 0, map[], [])

  /** Any number of callers, in any order. */
  function Run(labels: seq<Label>): World {
    if |labels| == 0 then NEW_ACCOUNT else Step(Run(labels[..|labels| - 1]), labels[|labels| - 1])
  }

  // ---------- what the history says ----------

  datatype Fate =
    | Unissued
    | Coming(generation: nat)
    | Held(generation: nat, expiry: int)
    | Spent(generation: nat, at: int, grace: int)
    | Lost

  function After(fate: Fate, e: Event, token: Token): Fate {
    match e
    case Began(Save(t, _), g) => if t == token then Coming(g) else fate
    case Stored(t, g, expiry) => if t == token then Held(g, expiry) else fate
    case Answered(_, t, g, outcome, at, grace) => if t == token && outcome == Valid then Spent(g, at, grace) else fate
    case Dropped(_, t, _, live, _) => if t == token && live then Lost else fate
    case _ => fate
  }

  /** What has become of a token. */
  function FateOf(log: seq<Event>, token: Token): Fate {
    if |log| == 0 then Unissued else After(FateOf(log[..|log| - 1], token), log[|log| - 1], token)
  }

  /** The specification: an answer is a matter of history and of the clock alone. */
  function Verdict(fate: Fate, generation: nat, now: int): Outcome {
    match fate
    case Held(g, expiry) => if g == generation && now < expiry then Valid else Unknown
    case Spent(g, at, grace) => if g == generation && grace > 0 && now < at + grace then JustRotated else Unknown
    case _ => Unknown
  }

  function Revocations(log: seq<Event>): nat {
    if |log| == 0 then 0 else Revocations(log[..|log| - 1]) + (if log[|log| - 1].Revoked? then 1 else 0)
  }

  /** What every event owes to the events before it. */
  ghost predicate EventOK(log: seq<Event>, i: nat)
    requires i < |log|
  {
    match log[i]
    case Began(request, g) => g == Revocations(log[..i]) && (request.Save? ==> FateOf(log[..i], request.token) == Unissued)
    case Stored(t, g, _) => FateOf(log[..i], t) == Coming(g)
    case Answered(readAt, t, g, outcome, at, grace) =>
      && readAt < i && log[readAt] == Began(Consume(t, grace), g)
      && outcome == Verdict(FateOf(log[..i], t), g, at)
    case Dropped(readAt, t, g, live, at) =>
      && readAt < i && log[readAt] == Began(Drop(t), g)
      && (live <==> Verdict(FateOf(log[..i], t), g, at) == Valid)
    case Revoked => true
  }

  ghost predicate LogOK(log: seq<Event>) {
    forall i {:trigger EventOK(log, i)} :: 0 <= i < |log| ==> EventOK(log, i)
  }

  // ---------- the invariant ----------

  ghost predicate TokenRight(w: World, k: Key) {
    var fate := FateOf(w.log, k.token);
    if fate.Held? && fate.generation == k.generation then k in w.keys.tokens && w.keys.tokens[k] == fate.expiry
    else k !in w.keys.tokens
  }

  /** The marker of a spent token says how long it is forgiven. */
  ghost predicate MarkerRight(w: World, k: Key) {
    var fate := FateOf(w.log, k.token);
    if fate.Spent? && fate.generation == k.generation && fate.grace > 0
    then k in w.keys.markers && w.keys.markers[k] == fate.at + fate.grace
    else k !in w.keys.markers
  }

  /** The keys hold exactly what the history says they should. */
  ghost predicate KeysMatch(w: World) {
    && (forall k {:trigger TokenRight(w, k)} :: TokenRight(w, k))
    && (forall k {:trigger MarkerRight(w, k)} :: MarkerRight(w, k))
  }

  ghost predicate PendingOK(w: World, c: nat)
    requires c in w.pending
  {
    var p := w.pending[c];
    && p.readAt < |w.log| && w.log[p.readAt] == Began(p.request, p.generation)
    && (p.request.Save? ==> FateOf(w.log, p.request.token) == Coming(p.generation))
  }

  predicate SaveSame(a: Request, b: Request) {
    a.Save? && b.Save? && a.token == b.token
  }

  ghost predicate PendingsOK(w: World) {
    && (forall c :: c in w.pending ==> PendingOK(w, c))
    && (forall c, d :: c in w.pending && d in w.pending && c != d ==> !SaveSame(w.pending[c].request, w.pending[d].request))
  }

  ghost predicate Inv(w: World) {
    && LogOK(w.log)
    && w.keys.generation == Revocations(w.log)
    && KeysMatch(w)
    && PendingsOK(w)
  }

  lemma Grown(log: seq<Event>, e: Event)
    ensures (log + [e])[..|log|] == log
    ensures forall t :: FateOf(log + [e], t) == After(FateOf(log, t), e, t)
    ensures Revocations(log + [e]) == Revocations(log) + (if e.Revoked? then 1 else 0)
  {
    assert (log + [e])[..|log|] == log;
  }

  lemma LogGrows(log: seq<Event>, e: Event)
    requires LogOK(log) && EventOK(log + [e], |log|)
    ensures LogOK(log + [e])
  {
    forall i | 0 <= i < |log|
      ensures EventOK(log + [e], i)
    {
      assert (log + [e])[..i] == log[..i];
      assert EventOK(log, i);
    }
  }

  /** An event that changes the fate of no token somebody is about to save. */
  lemma PendingsStay(w: World, after: World, e: Event)
    requires PendingsOK(w) && after.log == w.log + [e]
    requires after.pending.Keys <= w.pending.Keys && forall c :: c in after.pending ==> after.pending[c] == w.pending[c]
    requires forall c :: c in after.pending && after.pending[c].request.Save? ==>
               var t := after.pending[c].request.token; After(FateOf(w.log, t), e, t) == FateOf(w.log, t)
    ensures PendingsOK(after)
  {
    Grown(w.log, e);
    forall c | c in after.pending
      ensures PendingOK(after, c)
    {
      assert PendingOK(w, c);
    }
  }

  lemma {:induction false} UnissuedYet(log: seq<Event>, token: Token)
    requires LogOK(log) && !Issued(log, token)
    ensures FateOf(log, token) == Unissued
  {
    if |log| > 0 {
      var n := |log| - 1;
      assert LogOK(log[..n]) by {
        forall i | 0 <= i < n
          ensures EventOK(log[..n], i)
        {
          assert EventOK(log, i) && log[..n][..i] == log[..i];
        }
      }
      assert forall i :: 0 <= i < n ==> log[..n][i] == log[i];
      UnissuedYet(log[..n], token);
      assert EventOK(log, n);
    }
  }

  lemma BeginKeeps(w: World, caller: nat, request: Request)
    requires Inv(w) && MayBegin(w, caller, request)
    ensures Inv(Step(w, Begin(caller, request)))
  {
    var e, after := Began(request, w.keys.generation), Step(w, Begin(caller, request));
    Grown(w.log, e);
    if request.Save? {
      UnissuedYet(w.log, request.token);
    }
    LogGrows(w.log, e);
    forall k
      ensures TokenRight(after, k) && MarkerRight(after, k)
    {
      assert TokenRight(w, k) && MarkerRight(w, k);
    }
    forall c | c in after.pending
      ensures PendingOK(after, c)
      ensures c != caller ==> !SaveSame(after.pending[c].request, request)
    {
      if c != caller {
        assert PendingOK(w, c);
      }
    }
  }

  lemma StoreKeeps(w: World, caller: nat)
    requires Inv(w) && caller in w.pending && w.pending[caller].request.Save?
    ensures Inv(Step(w, Finish(caller)))
  {
    var p, after := w.pending[caller], Step(w, Finish(caller));
    var e := Stored(p.request.token, p.generation, w.now + p.request.ttl);
    assert PendingOK(w, caller);
    Grown(w.log, e);
    LogGrows(w.log, e);
    forall k
      ensures TokenRight(after, k) && MarkerRight(after, k)
    {
      assert TokenRight(w, k) && MarkerRight(w, k);
    }
    PendingsStay(w, after, e);
  }

  lemma SpendFollowsVerdict(w: World, token: Token, generation: nat, grace: int)
    requires KeysMatch(w)
    ensures Spend(w.keys, Key(generation, token), grace, w.now).1 == Verdict(FateOf(w.log, token), generation, w.now)
  {
    var k := Key(generation, token);
    assert TokenRight(w, k) && MarkerRight(w, k);
  }

  lemma ConsumeKeeps(w: World, caller: nat)
    requires Inv(w) && caller in w.pending && w.pending[caller].request.Consume?
    ensures Inv(Step(w, Finish(caller)))
  {
    var p, after := w.pending[caller], Step(w, Finish(caller));
    var token, key := p.request.token, Key(p.generation, p.request.token);
    var outcome := Spend(w.keys, key, p.request.grace, w.now).1;
    var e := Answered(p.readAt, token, p.generation, outcome, w.now, p.request.grace);
    assert PendingOK(w, caller);
    SpendFollowsVerdict(w, token, p.generation, p.request.grace);
    Grown(w.log, e);
    LogGrows(w.log, e);
    forall k
      ensures TokenRight(after, k) && MarkerRight(after, k)
    {
      assert TokenRight(w, k) && MarkerRight(w, k) && TokenRight(w, key) && MarkerRight(w, key);
    }
    forall c | c in after.pending && after.pending[c].request.Save?
      ensures outcome == Valid ==> after.pending[c].request.token != token
    {
      assert PendingOK(w, c);
    }
    PendingsStay(w, after, e);
  }

  lemma DropKeeps(w: World, caller: nat)
    requires Inv(w) && caller in w.pending && w.pending[caller].request.Drop?
    ensures Inv(Step(w, Finish(caller)))
  {
    var p, after := w.pending[caller], Step(w, Finish(caller));
    var token, key := p.request.token, Key(p.generation, p.request.token);
    var e := Dropped(p.readAt, token, p.generation, Alive(w.keys.tokens, key, w.now), w.now);
    assert PendingOK(w, caller);
    assert TokenRight(w, key);
    Grown(w.log, e);
    LogGrows(w.log, e);
    forall k
      ensures TokenRight(after, k) && MarkerRight(after, k)
    {
      assert TokenRight(w, k) && MarkerRight(w, k);
    }
    forall c | c in after.pending && after.pending[c].request.Save?
      ensures e.live ==> after.pending[c].request.token != token
    {
      assert PendingOK(w, c);
    }
    PendingsStay(w, after, e);
  }

  lemma RevokeKeeps(w: World)
    requires Inv(w)
    ensures Inv(Step(w, RevokeAll))
  {
    var after := Step(w, RevokeAll);
    Grown(w.log, Revoked);
    LogGrows(w.log, Revoked);
    forall k
      ensures TokenRight(after, k) && MarkerRight(after, k)
    {
      assert TokenRight(w, k) && MarkerRight(w, k);
    }
    PendingsStay(w, after, Revoked);
  }

  lemma TickKeeps(w: World, passed: nat)
    requires Inv(w)
    ensures Inv(Step(w, Tick(passed)))
  {
    var after := Step(w, Tick(passed));
    forall k
      ensures TokenRight(after, k) && MarkerRight(after, k)
    {
      assert TokenRight(w, k) && MarkerRight(w, k);
    }
    forall c | c in after.pending
      ensures PendingOK(after, c)
    {
      assert PendingOK(w, c);
    }
  }

  lemma StepKeeps(w: World, step: Label)
    requires Inv(w)
    ensures Inv(Step(w, step))
  {
    match step
    case Begin(caller, request) =>
      if MayBegin(w, caller, request) {
        BeginKeeps(w, caller, request);
      }
    case Finish(caller) =>
      if caller in w.pending {
        match w.pending[caller].request
        case Save(_, _) => StoreKeeps(w, caller);
        case Consume(_, _) => ConsumeKeeps(w, caller);
        case Drop(_) => DropKeeps(w, caller);
      }
    case RevokeAll => RevokeKeeps(w);
    case Tick(passed) => TickKeeps(w, passed);
  }

  lemma {:induction false} EveryRunKeepsInv(labels: seq<Label>)
    ensures Inv(Run(labels))
  {
    if |labels| == 0 {
      NewAccountInv(Run(labels));
    } else {
      EveryRunKeepsInv(labels[..|labels| - 1]);
      StepKeeps(Run(labels[..|labels| - 1]), labels[|labels| - 1]);
    }
  }

  lemma NewAccountInv(w: World)
    requires w == NEW_ACCOUNT
    ensures Inv(w)
  {
    forall k
      ensures TokenRight(w, k) && MarkerRight(w, k)
    {
      assert FateOf(w.log, k.token) == Unissued;
    }
  }

  /** The answer just given. */
  function Last(w: World): Outcome {
    if |w.log| > 0 && w.log[|w.log| - 1].Answered? then w.log[|w.log| - 1].outcome else Unknown
  }

  // ---------- one step of the store ----------

  lemma BeginEffect(w: World, c: nat, request: Request, t: Token)
    requires Inv(w) && MayBegin(w, c, request)
    ensures var after := Step(w, Begin(c, request));
            && Inv(after) && after.keys.generation == w.keys.generation && after.now == w.now
            && after.pending == w.pending[c := Pending(request, w.keys.generation, |w.log|)]
            && FateOf(after.log, t)
               == (if request.Save? && request.token == t then Coming(w.keys.generation) else FateOf(w.log, t))
            && (Issued(after.log, t) <==> Issued(w.log, t) || (request.Save? && request.token == t))
  {
    BeginKeeps(w, c, request);
    Grown(w.log, Began(request, w.keys.generation));
    IssuedGrows(w.log, Began(request, w.keys.generation), t);
  }

  lemma IssuedGrows(log: seq<Event>, e: Event, t: Token)
    ensures Issued(log + [e], t) <==> Issued(log, t) || (e.Began? && e.request.Save? && e.request.token == t)
  {
    if e.Began? && e.request.Save? && e.request.token == t {
      assert (log + [e])[|log|] == e;
    }
    forall i | 0 <= i < |log|
      ensures (log + [e])[i] == log[i]
    {
    }
  }

  lemma ConsumeEffect(w: World, c: nat, t: Token)
    requires Inv(w) && c in w.pending && w.pending[c].request.Consume?
    ensures var after, p := Step(w, Finish(c)), w.pending[c];
            var outcome := Verdict(FateOf(w.log, p.request.token), p.generation, w.now);
            && Inv(after) && after.keys.generation == w.keys.generation && after.now == w.now
            && after.pending == w.pending - {c}
            && after.log == w.log + [Answered(p.readAt, p.request.token, p.generation, outcome, w.now, p.request.grace)]
            && Last(after) == outcome
            && FateOf(after.log, t)
               == (if p.request.token == t && outcome == Valid then Spent(p.generation, w.now, p.request.grace)
                   else FateOf(w.log, t))
            && (Issued(after.log, t) <==> Issued(w.log, t))
  {
    var p := w.pending[c];
    ConsumeKeeps(w, c);
    SpendFollowsVerdict(w, p.request.token, p.generation, p.request.grace);
    var e := Answered(p.readAt, p.request.token, p.generation,
                      Verdict(FateOf(w.log, p.request.token), p.generation, w.now), w.now, p.request.grace);
    Grown(w.log, e);
    IssuedGrows(w.log, e, t);
  }

  lemma StoreEffect(w: World, c: nat, t: Token)
    requires Inv(w) && c in w.pending && w.pending[c].request.Save?
    ensures var after, p := Step(w, Finish(c)), w.pending[c];
            && Inv(after) && after.keys.generation == w.keys.generation && after.now == w.now
            && after.pending == w.pending - {c}
            && FateOf(w.log, p.request.token) == Coming(p.generation)
            && FateOf(after.log, t)
               == (if p.request.token == t then Held(p.generation, w.now + p.request.ttl) else FateOf(w.log, t))
            && (Issued(after.log, t) <==> Issued(w.log, t))
  {
    var p := w.pending[c];
    StoreKeeps(w, c);
    assert PendingOK(w, c);
    Grown(w.log, Stored(p.request.token, p.generation, w.now + p.request.ttl));
    IssuedGrows(w.log, Stored(p.request.token, p.generation, w.now + p.request.ttl), t);
  }

  lemma DropEffect(w: World, c: nat, t: Token)
    requires Inv(w) && c in w.pending && w.pending[c].request.Drop?
    ensures var after, p := Step(w, Finish(c)), w.pending[c];
            && Inv(after) && after.keys.generation == w.keys.generation && after.now == w.now
            && after.pending == w.pending - {c}
            && FateOf(after.log, t)
               == (if p.request.token == t && Verdict(FateOf(w.log, t), p.generation, w.now) == Valid then Lost
                   else FateOf(w.log, t))
  {
    var p := w.pending[c];
    DropKeeps(w, c);
    SpendFollowsVerdict(w, p.request.token, p.generation, 0);
    Grown(w.log, Dropped(p.readAt, p.request.token, p.generation, Alive(w.keys.tokens, Key(p.generation, p.request.token), w.now), w.now));
  }

  // ---------- what follows for callers ----------

  lemma {:induction false} FateEnds(log: seq<Event>, i: nat, j: nat, token: Token)
    requires LogOK(log) && i <= j <= |log|
    requires FateOf(log[..i], token).Spent? || FateOf(log[..i], token).Lost?
    ensures FateOf(log[..j], token) == FateOf(log[..i], token)
    decreases j
  {
    if i < j {
      FateEnds(log, i, j - 1, token);
      assert log[..j][..j - 1] == log[..j - 1];
      assert EventOK(log, j - 1);
    }
  }

  lemma FateAt(log: seq<Event>, i: nat, token: Token)
    requires i < |log|
    ensures FateOf(log[..i + 1], token) == After(FateOf(log[..i], token), log[i], token)
  {
    assert log[..i + 1][..i] == log[..i];
  }

  lemma {:induction false} FateBegins(log: seq<Event>, j: nat, token: Token)
    requires LogOK(log) && j <= |log| && FateOf(log[..j], token).Spent?
    ensures exists i :: 0 <= i < j && log[i].Answered? && log[i].token == token && log[i].outcome == Valid
                        && FateOf(log[..j], token) == Spent(log[i].generation, log[i].at, log[i].grace)
    decreases j
  {
    FateAt(log, j - 1, token);
    if FateOf(log[..j - 1], token).Spent? {
      FateEnds(log, j - 1, j, token);
      FateBegins(log, j - 1, token);
    }
  }

  predicate Answer(log: seq<Event>, i: nat, token: Token, outcome: Outcome) {
    i < |log| && log[i].Answered? && log[i].token == token && log[i].outcome == outcome
  }

  /** The store refines its specification: at every interleaving, what a Consume
      is told is what the token's history and the clock say. */
  lemma AnswersFollowHistory(labels: seq<Label>, i: nat)
    requires i < |Run(labels).log| && Run(labels).log[i].Answered?
    ensures var log := Run(labels).log;
            log[i].outcome == Verdict(FateOf(log[..i], log[i].token), log[i].generation, log[i].at)
  {
    EveryRunKeepsInv(labels);
    assert EventOK(Run(labels).log, i);
  }

  /** The token was stored under this generation to last until then. */
  ghost predicate StoredUntil(log: seq<Event>, token: Token, generation: nat, expiry: int) {
    exists s :: 0 <= s < |log| && log[s] == Stored(token, generation, expiry)
  }

  /** The event took the token away: it was honoured as valid, or dropped while live. */
  predicate Takes(e: Event, token: Token) {
    || (e.Answered? && e.token == token && e.outcome == Valid)
    || (e.Dropped? && e.token == token && e.live)
  }

  ghost predicate Taken(log: seq<Event>, token: Token) {
    exists k :: 0 <= k < |log| && Takes(log[k], token)
  }

  lemma StoredOrTakenGrows(log: seq<Event>, e: Event, token: Token, generation: nat, expiry: int)
    ensures StoredUntil(log + [e], token, generation, expiry)
            <==> StoredUntil(log, token, generation, expiry) || e == Stored(token, generation, expiry)
    ensures Taken(log + [e], token) <==> Taken(log, token) || Takes(e, token)
  {
    var longer := log + [e];
    assert longer[|log|] == e;
    if StoredUntil(log, token, generation, expiry) {
      var s :| 0 <= s < |log| && log[s] == Stored(token, generation, expiry);
      assert longer[s] == log[s];
    }
    if Taken(log, token) {
      var k :| 0 <= k < |log| && Takes(log[k], token);
      assert longer[k] == log[k];
    }
  }

  lemma LogShortens(log: seq<Event>, j: nat)
    requires LogOK(log) && j <= |log|
    ensures LogOK(log[..j])
  {
    forall i | 0 <= i < j
      ensures EventOK(log[..j], i)
    {
      assert EventOK(log, i) && log[..j][..i] == log[..i];
    }
  }

  /** The fate of a token, read off the record. */
  lemma {:induction false} FateIsRecorded(log: seq<Event>, token: Token, generation: nat, expiry: int)
    requires LogOK(log)
    ensures FateOf(log, token) == Held(generation, expiry)
            <==> StoredUntil(log, token, generation, expiry) && !Taken(log, token)
    ensures FateOf(log, token).Unissued? || FateOf(log, token).Coming? ==>
              !StoredUntil(log, token, generation, expiry) && !Taken(log, token)
    ensures FateOf(log, token).Held? ==> !Taken(log, token)
  {
    if |log| > 0 {
      var n := |log| - 1;
      LogShortens(log, n);
      FateIsRecorded(log[..n], token, generation, expiry);
      assert log == log[..n] + [log[n]] && EventOK(log, n);
      StoredOrTakenGrows(log[..n], log[n], token, generation, expiry);
    }
  }

  /** When a presented token is honoured, over every interleaving: it was stored
      under the generation its reader had read, has not run out, and was neither
      honoured nor dropped while live before. */
  lemma ValidExactlyWhen(labels: seq<Label>, j: nat)
    requires j < |Run(labels).log| && Run(labels).log[j].Answered?
    ensures var log := Run(labels).log;
            var e := log[j];
            e.outcome == Valid <==>
              (exists expiry :: StoredUntil(log[..j], e.token, e.generation, expiry) && e.at < expiry) && !Taken(log[..j], e.token)
  {
    var log := Run(labels).log;
    var e, fate := log[j], FateOf(log[..j], log[j].token);
    EveryRunKeepsInv(labels);
    assert EventOK(log, j);
    LogShortens(log, j);
    if fate.Held? {
      FateIsRecorded(log[..j], e.token, fate.generation, fate.expiry);
    }
    forall expiry | StoredUntil(log[..j], e.token, e.generation, expiry) && !Taken(log[..j], e.token)
      ensures fate == Held(e.generation, expiry)
    {
      FateIsRecorded(log[..j], e.token, e.generation, expiry);
    }
  }

  /** A token is honoured as valid at most once. */
  lemma ValidAtMostOnce(labels: seq<Label>, i: nat, j: nat, token: Token)
    requires Answer(Run(labels).log, i, token, Valid) && Answer(Run(labels).log, j, token, Valid)
    ensures i == j
  {
    if i < j {
      SpentIsOver(labels, i, j, token);
    } else if j < i {
      SpentIsOver(labels, j, i, token);
    }
  }

  /** Once spent, a token is answered JustRotated within the grace, to callers
      of the same generation, and Unknown ever after: exactly so. */
  lemma SpentIsOver(labels: seq<Label>, i: nat, j: nat, token: Token)
    requires Answer(Run(labels).log, i, token, Valid) && i < j < |Run(labels).log|
    requires Run(labels).log[j].Answered? && Run(labels).log[j].token == token
    ensures var first, later := Run(labels).log[i], Run(labels).log[j];
            later.outcome
            == if later.generation == first.generation && first.grace > 0 && later.at < first.at + first.grace
               then JustRotated else Unknown
  {
    var log := Run(labels).log;
    EveryRunKeepsInv(labels);
    FateAt(log, i, token);
    FateEnds(log, i + 1, j, token);
    assert EventOK(log, j);
  }

  /** JustRotated is only ever said of a token spent before, and only within the grace that followed. */
  lemma ForgivenOnlyAfterValid(labels: seq<Label>, j: nat, token: Token)
    requires Answer(Run(labels).log, j, token, JustRotated)
    ensures var log := Run(labels).log;
            exists i :: 0 <= i < j && Answer(log, i, token, Valid)
                        && log[j].generation == log[i].generation && log[j].at < log[i].at + log[i].grace
  {
    var log := Run(labels).log;
    AnswersFollowHistory(labels, j);
    EveryRunKeepsInv(labels);
    FateBegins(log, j, token);
    var i :| 0 <= i < j && log[i].Answered? && log[i].token == token && log[i].outcome == Valid
             && FateOf(log[..j], token) == Spent(log[i].generation, log[i].at, log[i].grace);
    assert Answer(log, i, token, Valid) && log[j].generation == log[i].generation && log[j].at < log[i].at + log[i].grace;
  }

  /** A token signed out while it was live is Unknown to everybody, before and after. */
  lemma DroppedIsUnknown(labels: seq<Label>, i: nat, j: nat, token: Token)
    requires i < |Run(labels).log| && Run(labels).log[i].Dropped? && Run(labels).log[i].live && Run(labels).log[i].token == token
    requires j < |Run(labels).log| && Run(labels).log[j].Answered? && Run(labels).log[j].token == token
    ensures Run(labels).log[j].outcome == Unknown
  {
    EveryRunKeepsInv(labels);
    DroppedInLog(Run(labels).log, i, j, token);
  }

  lemma DroppedInLog(log: seq<Event>, i: nat, j: nat, token: Token)
    requires LogOK(log) && i < |log| && log[i].Dropped? && log[i].live && log[i].token == token
    requires j < |log| && log[j].Answered? && log[j].token == token
    ensures log[j].outcome == Unknown
  {
    assert EventOK(log, i) && EventOK(log, j);
    if i < j {
      FateAt(log, i, token);
      FateEnds(log, i + 1, j, token);
    } else if log[j].outcome != Unknown {
      FateAt(log, j, token);
      FateEnds(log, j + 1, i, token);
    }
  }

  // ---------- after signing out ----------

  function Clock(e: Event): Option<int> {
    match e
    case Answered(_, _, _, _, at, _) => Some(at)
    case Dropped(_, _, _, _, at) => Some(at)
    case _ => None
  }

  /** Times never go back. */
  ghost predicate Clocked(log: seq<Event>, now: int) {
    && (forall i :: 0 <= i < |log| && Clock(log[i]).Some? ==> Clock(log[i]).value <= now)
    && (forall i, j :: 0 <= i < j < |log| && Clock(log[i]).Some? && Clock(log[j]).Some? ==> Clock(log[i]).value <= Clock(log[j]).value)
  }

  lemma StepKeepsTime(w: World, step: Label)
    requires Clocked(w.log, w.now)
    ensures Clocked(Step(w, step).log, Step(w, step).now)
  {
  }

  lemma {:induction false} RunsKeepTime(labels: seq<Label>)
    ensures Clocked(Run(labels).log, Run(labels).now)
  {
    if |labels| > 0 {
      RunsKeepTime(labels[..|labels| - 1]);
      StepKeepsTime(Run(labels[..|labels| - 1]), labels[|labels| - 1]);
    }
  }

  /** What can become of a token once it has been stored. */
  predicate Settled(fate: Fate, g: nat) {
    match fate
    case Held(h, _) => h == g
    case Spent(h, _, _) => h == g
    case Lost => true
    case _ => false
  }

  lemma {:induction false} SettledStays(log: seq<Event>, i: nat, j: nat, token: Token, g: nat)
    requires LogOK(log) && i <= j <= |log| && Settled(FateOf(log[..i], token), g)
    ensures Settled(FateOf(log[..j], token), g)
    decreases j
  {
    if i < j {
      SettledStays(log, i, j - 1, token, g);
      FateAt(log, j - 1, token);
      assert EventOK(log, j - 1);
    }
  }

  /** A token held past its time is never spent again. */
  lemma {:induction false} ExpiredStays(log: seq<Event>, now: int, i: nat, j: nat, token: Token)
    requires LogOK(log) && Clocked(log, now) && i < j <= |log| && Clock(log[i]).Some?
    requires FateOf(log[..i + 1], token).Held? && FateOf(log[..i + 1], token).expiry <= Clock(log[i]).value
    ensures FateOf(log[..j], token) == FateOf(log[..i + 1], token)
    decreases j
  {
    if i + 1 < j {
      ExpiredStays(log, now, i, j - 1, token);
      FateAt(log, j - 1, token);
      assert EventOK(log, j - 1);
    }
  }

  /** The token was stored before the Drop at i, which concerns the Consume at
      j: both name one generation, or each began after the one before. */
  ghost predicate DropConcerns(log: seq<Event>, s: nat, i: nat, j: nat) {
    && s < i < j < |log|
    && log[s].Stored? && log[i].Dropped? && log[j].Answered?
    && log[s].token == log[i].token == log[j].token
    && (log[s].generation == log[i].generation || s < log[i].readAt < log[j].readAt)
  }

  /** It was spent before the Drop at i, and at j that is still forgiven. */
  ghost predicate SpentBefore(log: seq<Event>, i: nat, j: nat)
    requires i < j < |log| && log[j].Answered?
  {
    exists f :: 0 <= f < i && Answer(log, f, log[j].token, Valid) && log[f].generation == log[j].generation
                && log[f].grace > 0 && log[j].at < log[f].at + log[f].grace
  }

  /** Over every run: a dropped token is honoured again exactly when it had been
      spent before the Drop, in the same generation, and its grace is not over. */
  lemma DroppedComesBackExactlyWhen(labels: seq<Label>, s: nat, i: nat, j: nat)
    requires DropConcerns(Run(labels).log, s, i, j)
    ensures var log := Run(labels).log;
            log[j].outcome == if SpentBefore(log, i, j) then JustRotated else Unknown
  {
    var log, token := Run(labels).log, Run(labels).log[j].token;
    EveryRunKeepsInv(labels);
    RunsKeepTime(labels);
    assert EventOK(log, s);
    FateAt(log, s, token);
    SettledStays(log, s + 1, i, token, log[s].generation);
    if FateOf(log[..i], token).Spent? {
      SpentThenDropped(log, i, j);
    } else {
      NotSpentThenDropped(log, Run(labels).now, s, i, j);
    }
  }

  lemma SpentThenDropped(log: seq<Event>, i: nat, j: nat)
    requires LogOK(log) && i < j < |log| && log[j].Answered? && FateOf(log[..i], log[j].token).Spent?
    ensures log[j].outcome == if SpentBefore(log, i, j) then JustRotated else Unknown
  {
    var token := log[j].token;
    FateEnds(log, i, j, token);
    assert EventOK(log, j);
    FateBegins(log, i, token);
    var f :| 0 <= f < i && log[f].Answered? && log[f].token == token && log[f].outcome == Valid
             && FateOf(log[..i], token) == Spent(log[f].generation, log[f].at, log[f].grace);
    assert Answer(log, f, token, Valid);
    forall e | 0 <= e < i && Answer(log, e, token, Valid)
      ensures FateOf(log[..i], token) == Spent(log[e].generation, log[e].at, log[e].grace)
    {
      SpentFrom(log, e, i, token);
    }
  }

  lemma SpentFrom(log: seq<Event>, f: nat, i: nat, token: Token)
    requires LogOK(log) && f < i <= |log| && Answer(log, f, token, Valid)
    ensures FateOf(log[..i], token) == Spent(log[f].generation, log[f].at, log[f].grace)
  {
    FateAt(log, f, token);
    FateEnds(log, f + 1, i, token);
  }

  lemma NotSpentThenDropped(log: seq<Event>, now: int, s: nat, i: nat, j: nat)
    requires LogOK(log) && Clocked(log, now) && DropConcerns(log, s, i, j)
    requires Settled(FateOf(log[..i], log[j].token), log[s].generation) && !FateOf(log[..i], log[j].token).Spent?
    ensures log[j].outcome == Unknown && !SpentBefore(log, i, j)
  {
    var token := log[j].token;
    assert EventOK(log, i) && EventOK(log, j);
    FateAt(log, i, token);
    NobodySpentBefore(log, i, j);
    if FateOf(log[..i + 1], token).Lost? {
      FateEnds(log, i + 1, j, token);
    } else if log[s].generation == log[i].generation {
      ExpiredStays(log, now, i, j, token);
    } else {
      SettledStays(log, i, j, token, log[s].generation);
      StoredGenerationIsOld(log, s, log[i].readAt, log[j].readAt);
    }
  }

  lemma NobodySpentBefore(log: seq<Event>, i: nat, j: nat)
    requires LogOK(log) && i < j < |log| && log[j].Answered? && !FateOf(log[..i], log[j].token).Spent?
    ensures !SpentBefore(log, i, j)
  {
    if SpentBefore(log, i, j) {
      var f :| 0 <= f < i && Answer(log, f, log[j].token, Valid);
      SpentFrom(log, f, i, log[j].token);
    }
  }

  lemma StoredGenerationIsOld(log: seq<Event>, s: nat, drop: nat, consume: nat)
    requires LogOK(log) && s < drop < consume < |log| && log[s].Stored? && log[drop].Began? && log[consume].Began?
    ensures log[s].generation <= log[drop].generation <= log[consume].generation
  {
    assert EventOK(log, s) && EventOK(log, drop) && EventOK(log, consume);
    ComingGeneration(log, s, log[s].token);
    RevocationsGrow(log, s, drop);
    RevocationsGrow(log, drop, consume);
  }

  lemma {:induction false} ComingGeneration(log: seq<Event>, i: nat, token: Token)
    requires LogOK(log) && i <= |log| && FateOf(log[..i], token).Coming?
    ensures FateOf(log[..i], token).generation <= Revocations(log[..i])
    decreases i
  {
    FateAt(log, i - 1, token);
    assert EventOK(log, i - 1);
    assert log[..i][..i - 1] == log[..i - 1];
    if FateOf(log[..i - 1], token).Coming? {
      ComingGeneration(log, i - 1, token);
    }
  }

  /** The promise that a session that was signed out must not come back, broken:
      a rotated token, dropped, is answered JustRotated within its grace. */
  lemma DroppedAfterRotationComesBack()
    ensures exists labels, i, j :: var log := Run(labels).log;
              0 <= i < j < |log| && log[i].Dropped? && Answer(log, j, log[i].token, JustRotated)
  {
    var none: seq<Label> := [];
    var spent := TwoMore(TwoMore(none, Begin(0, Save(7, 100)), Finish(0)), Begin(0, Consume(7, 10)), Finish(0));
    var again := TwoMore(TwoMore(spent, Begin(0, Drop(7)), Finish(0)), Begin(0, Consume(7, 10)), Finish(0));
    RotatedIn(Run(spent));
    ForgivenAfterDrop(Run(spent));
    var log := Run(again).log;
    assert log[5].Dropped? && Answer(log, 7, log[5].token, JustRotated);
  }

  /** Saved and rotated: the marker is all that is left of the token. */
  ghost predicate Rotated(w: World) {
    && w.now == 0 && w.pending == map[] && w.keys == Keys(0, map[], map[Key(0, 7) := 10]) && |w.log| == 4
  }

  lemma RotatedIn(w: World)
    requires w == Steps(Steps(NEW_ACCOUNT, Begin(0, Save(7, 100)), Finish(0)), Begin(0, Consume(7, 10)), Finish(0))
    ensures Rotated(w)
  {
  }

  lemma ForgivenAfterDrop(w: World)
    requires Rotated(w)
    ensures var log := Steps(Steps(w, Begin(0, Drop(7)), Finish(0)), Begin(0, Consume(7, 10)), Finish(0)).log;
            |log| == 8 && log[5].Dropped? && log[5].token == 7 && Answer(log, 7, 7, JustRotated)
  {
  }

  function Steps(w: World, a: Label, b: Label): World {
    Step(Step(w, a), b)
  }

  function TwoMore(labels: seq<Label>, a: Label, b: Label): (longer: seq<Label>)
    ensures Run(longer) == Steps(Run(labels), a, b)
  {
    RunOneMore(labels, a);
    RunOneMore(labels + [a], b);
    labels + [a] + [b]
  }

  lemma RunOneMore(labels: seq<Label>, a: Label)
    ensures Run(labels + [a]) == Step(Run(labels), a)
  {
    assert (labels + [a])[..|labels|] == labels;
  }

  lemma {:induction false} RevocationsGrow(log: seq<Event>, i: nat, j: nat)
    requires i <= j <= |log|
    ensures Revocations(log[..i]) <= Revocations(log[..j])
    decreases j
  {
    if i < j {
      assert log[..j][..j - 1] == log[..j - 1];
      RevocationsGrow(log, i, j - 1);
    }
  }

  predicate Generation(fate: Fate, g: nat) {
    match fate
    case Unissued => false
    case Coming(h) => h == g
    case Held(h, _) => h == g
    case Spent(h, _, _) => h == g
    case Lost => true
  }

  lemma {:induction false} GenerationStays(log: seq<Event>, i: nat, j: nat, token: Token, g: nat)
    requires LogOK(log) && i <= j <= |log| && Generation(FateOf(log[..i], token), g)
    ensures Generation(FateOf(log[..j], token), g)
    decreases j
  {
    if i < j {
      GenerationStays(log, i, j - 1, token, g);
      FateAt(log, j - 1, token);
      assert EventOK(log, j - 1);
    }
  }

  /** RevokeAll reaches every token whose save had begun: a Consume that reads
      the generation after it honours none of them, in whatever order the
      second steps of the two run. */
  lemma RevokedIsUnknown(labels: seq<Label>, save: nat, revoke: nat, j: nat)
    requires var log := Run(labels).log;
             && j < |log| && log[j].Answered? && save < revoke < log[j].readAt && log[j].readAt < |log|
             && log[revoke] == Revoked
             && log[save].Began? && log[save].request.Save? && log[save].request.token == log[j].token
    ensures Run(labels).log[j].outcome == Unknown
  {
    var log := Run(labels).log;
    var token := log[j].token;
    EveryRunKeepsInv(labels);
    assert EventOK(log, j) && log[log[j].readAt].Began?;
    SavedUnder(log, save, j, token);
    ReadLater(log, save, revoke, log[j].readAt);
    assert EventOK(log, j);
  }

  lemma SavedUnder(log: seq<Event>, save: nat, j: nat, token: Token)
    requires LogOK(log) && save < j < |log|
    requires log[save].Began? && log[save].request.Save? && log[save].request.token == token
    ensures log[save].generation == Revocations(log[..save])
    ensures Generation(FateOf(log[..j], token), log[save].generation)
  {
    assert EventOK(log, save);
    FateAt(log, save, token);
    GenerationStays(log, save + 1, j, token, log[save].generation);
  }

  lemma ReadLater(log: seq<Event>, save: nat, revoke: nat, read: nat)
    requires LogOK(log) && save < revoke < read < |log| && log[revoke] == Revoked && log[read].Began?
    ensures log[read].generation > Revocations(log[..save])
  {
    assert EventOK(log, read);
    RevocationsGrow(log, save, revoke);
    RevocationsGrow(log, revoke + 1, read);
    assert log[..revoke + 1][..revoke] == log[..revoke];
  }

  /** What the race leaves open: a Consume that read the generation before the
      revocation may still honour the token after it. */
  lemma EarlierReaderIsStillHonoured()
    ensures exists labels :: var log := Run(labels).log;
              |log| == 5 && log[3] == Revoked && log[4].Answered? && log[4].outcome == Valid
  {
    var labels := [Begin(0, Save(7, 10)), Finish(0), Begin(0, Consume(7, 1)), RevokeAll, Finish(0)];
    var w1 := Step(NEW_ACCOUNT, labels[0]);
    var w2 := Step(w1, labels[1]);
    var w3 := Step(w2, labels[2]);
    var w4 := Step(w3, labels[3]);
    assert labels[..5] == labels;
    assert labels[..4][..3] == labels[..3] && labels[..3][..2] == labels[..2] && labels[..2][..1] == labels[..1];
    assert Run(labels[..1]) == w1 by {
      assert labels[..1][..0] == [];
    }
    assert Run(labels[..2]) == w2;
    assert Run(labels[..3]) == w3;
    assert Run(labels[..4]) == w4;
    assert Run(labels).log[4].outcome == Valid;
  }
}
