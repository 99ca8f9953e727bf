/** The refresh store as an object, and the use cases of
    back/internal/app/auth/service.go above it: what each outcome of a
    presented token leads to. */
module Sessions {
  import opened Types
  import opened RefreshStore

  /** Both steps of a request with nobody in between. */
  function Uninterrupted(w: World, request: Request): World {
    Step(Step(w, Begin(0, request)), Finish(0))
  }

  /** What presenting a token at some later time would find. */
  function Standing(log: seq<Event>, token: Token, generation: nat, at: int): Outcome {
    Verdict(FateOf(log, token), generation, at)
  }

  ghost predicate AllOver(log: seq<Event>, generation: nat) {
    forall t, at :: Standing(log, t, generation, at) == Unknown
  }

  lemma {:induction false} GenerationsBehind(log: seq<Event>, token: Token)
    requires LogOK(log)
    ensures match FateOf(log, token)
            case Coming(g) => g <= Revocations(log)
            case Held(g, _) => g <= Revocations(log)
            case Spent(g, _, _) => g <= Revocations(log)
            case _ => true
  {
    if |log| > 0 {
      var n := |log| - 1;
      ShorterLog(log, n);
      GenerationsBehind(log[..n], token);
      assert EventOK(log, n);
    }
  }

  lemma ShorterLog(log: seq<Event>, n: nat)
    requires LogOK(log) && n <= |log|
    ensures LogOK(log[..n])
  {
    forall i | 0 <= i < n
      ensures EventOK(log[..n], i)
    {
      assert EventOK(log, i) && log[..n][..i] == log[..i];
    }
  }

  /** A new generation is one no token belongs to. */
  lemma RevokedAllOver(w: World)
    requires Inv(w)
    ensures AllOver(Step(w, RevokeAll).log, w.keys.generation + 1)
  {
    var log, g := w.log + [Revoked], w.keys.generation + 1;
    Grown(w.log, Revoked);
    forall t, at
      ensures Standing(log, t, g, at) == Unknown
    {
      GenerationsBehind(w.log, t);
    }
  }

  lemma UninterruptedKeeps(w: World, request: Request)
    requires Inv(w)
    ensures Inv(Uninterrupted(w, request))
  {
    StepKeeps(w, Begin(0, request));
    StepKeeps(Step(w, Begin(0, request)), Finish(0));
  }

  /** What becomes of the token a request names, when it is served at once. */
  function FateAfter(fate: Fate, request: Request, generation: nat, now: int): Fate {
    match request
    case Save(_, ttl) => Held(generation, now + ttl)
    case Consume(_, grace) => if Verdict(fate, generation, now) == Valid then Spent(generation, now, grace) else fate
    case Drop(_) => if Verdict(fate, generation, now) == Valid then Lost else fate
  }

  /** The second step of a request, the only one under way. */
  lemma SecondStepFate(mid: World, after: World, request: Request, readAt: nat, fate: Fate, t: Token)
    requires Inv(mid) && mid.pending == map[0 := Pending(request, mid.keys.generation, readAt)]
    requires after == Step(mid, Finish(0))
    requires (request.Save? && request.token == t) || FateOf(mid.log, t) == fate
    ensures after.pending == map[] && after.keys.generation == mid.keys.generation && after.now == mid.now
    ensures FateOf(after.log, t) == if t == request.token then FateAfter(fate, request, mid.keys.generation, mid.now) else fate
  {
    assert mid.pending - {0} == map[];
    match request
    case Save(_, _) => StoreEffect(mid, 0, t);
    case Consume(_, _) => ConsumeEffect(mid, 0, t);
    case Drop(_) => DropEffect(mid, 0, t);
  }

  /** The first step. */
  lemma FirstStepFate(w: World, mid: World, request: Request, t: Token)
    requires Inv(w) && w.pending == map[] && (request.Save? ==> !Issued(w.log, request.token))
    requires mid == Step(w, Begin(0, request))
    ensures Inv(mid) && mid.pending == map[0 := Pending(request, w.keys.generation, |w.log|)]
    ensures mid.keys.generation == w.keys.generation && mid.now == w.now
    ensures (request.Save? && request.token == t) || FateOf(mid.log, t) == FateOf(w.log, t)
  {
    BeginEffect(w, 0, request, t);
  }

  lemma UninterruptedFate(w: World, mid: World, after: World, request: Request, t: Token)
    requires Inv(w) && w.pending == map[] && (request.Save? ==> !Issued(w.log, request.token))
    requires mid == Step(w, Begin(0, request)) && after == Step(mid, Finish(0))
    ensures after.pending == map[] && after.keys.generation == w.keys.generation && after.now == w.now
    ensures FateOf(after.log, t)
            == if t == request.token then FateAfter(FateOf(w.log, t), request, w.keys.generation, w.now) else FateOf(w.log, t)
  {
    FirstStepFate(w, mid, request, t);
    SecondStepFate(mid, after, request, |w.log|, FateOf(w.log, t), t);
  }

  // ---------- the store ----------

  class TokenStore {
    var generation: nat
    var tokens: map<Key, int>
    var markers: map<Key, int>
    var now: int
    ghost var log: seq<Event>

    ghost function History(): World
      reads this
    {
      World(Keys(generation, tokens, markers), now, map[], log)
    }

    ghost predicate Valid()
      reads this
    {
      Inv(History())
    }

    constructor ()
      ensures Valid() && log == [] && now == 0
    {
      generation, tokens, markers, now, log := 0, map[], map[], 0, [];
      new;
      NewAccountInv(History());
    }

    method Save(token: Token, ttl: int)
      requires Valid() && !Issued(log, token)
      modifies this
      ensures Valid() && History() == Uninterrupted(old(History()), RefreshStore.Save(token, ttl))
    {
      UninterruptedKeeps(History(), RefreshStore.Save(token, ttl));
      var g := generation;
      tokens := tokens[Key(g, token) := now + ttl];
      log := log + [Began(RefreshStore.Save(token, ttl), g)] + [Stored(token, g, now + ttl)];
      assert History() == Uninterrupted(old(History()), RefreshStore.Save(token, ttl));
    }

    method Consume(token: Token, grace: int) returns (outcome: Outcome)
      requires Valid()
      modifies this
      ensures Valid() && History() == Uninterrupted(old(History()), RefreshStore.Consume(token, grace))
      ensures outcome == Standing(old(log), token, old(generation), now)
    {
      UninterruptedKeeps(History(), RefreshStore.Consume(token, grace));
      SpendFollowsVerdict(History(), token, generation, grace);
      var g := generation;
      var key := Key(g, token);
      if key in tokens && now < tokens[key] {
        tokens := tokens - {key};
        if grace > 0 {
          markers := markers[key := now + grace];
        }
        outcome := Outcome.Valid;
      } else if key in markers && now < markers[key] {
        outcome := JustRotated;
      } else {
        outcome := Unknown;
      }
      log := log + [Began(RefreshStore.Consume(token, grace), g)] + [Answered(|log|, token, g, outcome, now, grace)];
      assert History() == Uninterrupted(old(History()), RefreshStore.Consume(token, grace));
    }

    method Drop(token: Token)
      requires Valid()
      modifies this
      ensures Valid() && History() == Uninterrupted(old(History()), RefreshStore.Drop(token))
    {
      UninterruptedKeeps(History(), RefreshStore.Drop(token));
      var g := generation;
      ghost var live := Alive(tokens, Key(g, token), now);
      if Key(g, token) in tokens && now < tokens[Key(g, token)] {
        tokens := tokens - {Key(g, token)};
      }
      log := log + [Began(RefreshStore.Drop(token), g)] + [Dropped(|log|, token, g, live, now)];
      assert History() == Uninterrupted(old(History()), RefreshStore.Drop(token));
    }

    method RevokeAll()
      requires Valid()
      modifies this
      ensures Valid() && History() == Step(old(History()), RefreshStore.RevokeAll)
      ensures AllOver(log, generation)
    {
      StepKeeps(History(), RefreshStore.RevokeAll);
      RevokedAllOver(History());
      generation := generation + 1;
      log := log + [Revoked];
    }
  }

  // ---------- the use cases ----------

  class Service {
    const store: TokenStore
    const ttl: int
    const grace: int

    constructor (store: TokenStore, ttl: int, grace: int)
      ensures this.store == store && this.ttl == ttl && this.grace == grace
    {
      this.store, this.ttl, this.grace := store, ttl, grace;
    }

    /** Hands out a token never seen before. */
    method Issue(made: Token)
      requires store.Valid() && !Issued(store.log, made)
      modifies store
      ensures store.Valid()
      ensures store.History() == Uninterrupted(old(store.History()), Save(made, ttl))
    {
      store.Save(made, ttl);
    }

    /** A live token, or one spent moments ago, is exchanged for a new one. Any
        other ends every session of the account. */
    method Refresh(known: bool, presented: Token, made: Token) returns (r: Result<Token>)
      requires store.Valid() && !Issued(store.log, made) && presented != made
      modifies store
      ensures store.Valid() && store.now == old(store.now)
      ensures Standing(old(store.log), presented, old(store.generation), store.now) == Unknown
              ==> r == Err(SessionExpired) && AllOver(store.log, store.generation)
      ensures Standing(old(store.log), presented, old(store.generation), store.now) != Unknown
              ==> && r == (if known then Ok(made) else Err(UserNotFound))
                  && store.generation == old(store.generation)
                  && (known ==> FateOf(store.log, made) == Held(store.generation, store.now + ttl))
                  && FateOf(store.log, presented).Spent?
                  && (forall t :: t != presented && t != made ==> FateOf(store.log, t) == FateOf(old(store.log), t))
    {
      ghost var before := store.History();
      UninterruptedStays(before, Consume(presented, grace));
      var outcome := store.Consume(presented, grace);
      if outcome == Unknown {
        store.RevokeAll();
        return Err(SessionExpired);
      }
      if !known {
        return Err(UserNotFound);
      }
      NotYetIssued(before, Consume(presented, grace), made);
      UninterruptedStays(store.History(), Save(made, ttl));
      Issue(made);
      return Ok(made);
    }

    /** A token signed out while live is gone for good; one already spent keeps
        what is left of its grace, and nothing else changes. */
    method Logout(presented: Token)
      requires store.Valid()
      modifies store
      ensures store.Valid() && store.generation == old(store.generation) && store.now == old(store.now)
      ensures forall at :: at >= store.now ==>
                Standing(store.log, presented, store.generation, at)
                == if FateOf(old(store.log), presented).Spent? then Standing(old(store.log), presented, store.generation, at)
                   else Unknown
      ensures forall t :: t != presented ==> FateOf(store.log, t) == FateOf(old(store.log), t)
    {
      UninterruptedStays(store.History(), Drop(presented));
      store.Drop(presented);
    }

    method LogoutAll()
      requires store.Valid()
      modifies store
      ensures store.Valid() && AllOver(store.log, store.generation)
    {
      store.RevokeAll();
    }
  }

  lemma UninterruptedStays(w: World, request: Request)
    requires Inv(w) && w.pending == map[] && (request.Save? ==> !Issued(w.log, request.token))
    ensures var after := Uninterrupted(w, request);
            && after.keys.generation == w.keys.generation && after.now == w.now
            && (forall t :: t != request.token ==> FateOf(after.log, t) == FateOf(w.log, t))
            && FateOf(after.log, request.token) == FateAfter(FateOf(w.log, request.token), request, w.keys.generation, w.now)
  {
    var mid, after := Step(w, Begin(0, request)), Uninterrupted(w, request);
    forall t
      ensures FateOf(after.log, t)
              == if t == request.token then FateAfter(FateOf(w.log, t), request, w.keys.generation, w.now) else FateOf(w.log, t)
    {
      UninterruptedFate(w, mid, after, request, t);
    }
    UninterruptedFate(w, mid, after, request, 0);
  }

  lemma NotYetIssued(w: World, request: Request, token: Token)
    requires w.pending == map[] && !request.Save? && !Issued(w.log, token)
    ensures !Issued(Uninterrupted(w, request).log, token)
  {
  }
}
