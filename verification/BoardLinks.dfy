/** The links a user draws between tasks, and that every request keeps them honest. */
module BoardLinks {
  import opened Types
  import opened Scopes
  import opened Board
  import opened BoardInvariants

  /** Joining the same pair is an equivalence, direction and all. */
  lemma SameEndsIsEquivalence(a: Link, b: Link, c: Link)
    ensures SameEnds(a, a)
    ensures SameEnds(a, b) ==> SameEnds(b, a)
    ensures SameEnds(a, b) && SameEnds(b, c) ==> SameEnds(a, c)
  {
  }

  /** The uniqueness indexes normalise an undirected pair; a directed one reads one way only. */
  lemma ReversedPair(source: Id, target: Id, kind: LinkType)
    requires source != target
    ensures SameEnds(Link(source, target, kind), Link(target, source, kind)) <==> !Directed(kind)
  {
  }

  lemma AddedLinkKeeps(tasks: Rows, links: map<Id, Link>, id: Id, link: Link)
    requires LinksOK(tasks, links) && LinkOK(tasks, link) && !Duplicates(links, id, link)
    ensures LinksOK(tasks, links[id := link])
  {
    var drawn := links[id := link];
    forall j, k | j in drawn && k in drawn && j != k
      ensures !SameEnds(drawn[j], drawn[k])
    {
      if k == id {
        assert !SameEnds(links[j], link);
      } else if j == id {
        SameEndsIsEquivalence(link, links[k], link);
        assert !SameEnds(links[k], link);
      }
    }
  }

  /** When a link may be drawn. */
  ghost predicate Drawable(s: State, setup: Setup, id: Id, link: Link) {
    && id != NIL && id !in s.links
    && LinkOK(s.tasks, link) && link.source != NIL && link.target != NIL
    && !Duplicates(s.links, id, link)
    && (TaskLinkLimit(setup.plan).Some? ==> |s.links| < TaskLinkLimit(setup.plan).value)
  }

  /** The account with the link added and counted, before the catalogue is consulted. */
  function Drawn(s: State, id: Id, link: Link): State {
    s.(links := s.links[id := link], stats := ApplyStats(s.stats, NO_DELTA.(linksCreated := 1)))
  }

  lemma DrawnKeepsInv(s: State, setup: Setup, id: Id, link: Link)
    requires Inv(s, setup) && Drawable(s, setup, id, link)
    ensures Inv(Drawn(s, id, link), setup)
  {
    AddedLinkKeeps(s.tasks, s.links, id, link);
  }

  /** The request names a link, two tasks and, if any, one of the types. */
  predicate WellNamed(id: Id, source: Id, target: Id, kind: KindArg) {
    !kind.BadKind? && id != NIL && source != NIL && target != NIL
  }

  predicate Kin(tasks: Rows, source: Id, target: Id)
    requires source in tasks && target in tasks
  {
    ParentOf(tasks, source, target) || ParentOf(tasks, target, source)
  }

  predicate NoSlotLeft(s: State, setup: Setup) {
    TaskLinkLimit(setup.plan).Some? && |s.links| >= TaskLinkLimit(setup.plan).value
  }

  /** Which refusal answers what: the first of these that applies. */
  ghost predicate RefusedFor(s: State, setup: Setup, id: Id, source: Id, target: Id, kind: KindArg, code: Code) {
    var live := Live(s.tasks, source) && Live(s.tasks, target);
    match code
    case SelfLink => WellNamed(id, source, target, kind) && source == target
    case TaskNotFound => WellNamed(id, source, target, kind) && source != target && !live
    case QuotaLimitReached =>
      WellNamed(id, source, target, kind) && source != target && live && !Kin(s.tasks, source, target) && NoSlotLeft(s, setup)
    case DuplicateLink =>
      WellNamed(id, source, target, kind) && source != target && live
      && (Kin(s.tasks, source, target)
          || (!NoSlotLeft(s, setup) && Duplicates(s.links, id, Link(source, target, SentKind(kind)))))
    case ValidationFailed =>
      || !WellNamed(id, source, target, kind)
      || (source != target && live && !Kin(s.tasks, source, target) && !NoSlotLeft(s, setup)
          && !Duplicates(s.links, id, Link(source, target, SentKind(kind))) && id in s.links)
    case _ => false
  }

  lemma CreateLinkDecides(s: State, setup: Setup, id: Id, source: Id, target: Id, kind: KindArg)
    ensures var r, link := CreateLink(s, setup, id, source, target, kind), Link(source, target, SentKind(kind));
            && (r.Ok? <==> !kind.BadKind? && Drawable(s, setup, id, link))
            && (r.Ok? ==> r == Ok(Evaluate(Drawn(s, id, link), setup)))
            && (forall code :: r == Err(code) <==> RefusedFor(s, setup, id, source, target, kind, code))
  {
  }

  /** A link is drawn exactly when it joins two distinct live tasks that are not
      parent and child, repeats no link, and fits the plan; and each refusal
      means what it says. */
  lemma CreateLinkOutcome(s: State, setup: Setup, id: Id, source: Id, target: Id, kind: KindArg)
    requires Inv(s, setup)
    ensures var r, link := CreateLink(s, setup, id, source, target, kind), Link(source, target, SentKind(kind));
            && (r.Ok? <==> !kind.BadKind? && Drawable(s, setup, id, link))
            && (r.Ok? ==> Inv(r.value, setup) && r.value.links == s.links[id := link] && r.value.tasks == s.tasks)
            && (forall code :: r == Err(code) <==> RefusedFor(s, setup, id, source, target, kind, code))
  {
    var link := Link(source, target, SentKind(kind));
    CreateLinkDecides(s, setup, id, source, target, kind);
    if !kind.BadKind? && Drawable(s, setup, id, link) {
      DrawnKeepsInv(s, setup, id, link);
      EvaluateKeepsInv(Drawn(s, id, link), setup);
      EvaluateHoldsTheEarned(Drawn(s, id, link), setup);
    }
  }

  /** Changing what a link means is refused exactly for a link that is not
      there, a type that is none, or another link that already says it. */
  lemma RetypeLinkOutcome(s: State, setup: Setup, id: Id, kind: KindArg)
    requires Inv(s, setup)
    ensures var r := RetypeLink(s, id, kind);
      if id !in s.links then r == Err(TaskNotFound)
      else if !kind.KindOf? then r == Err(ValidationFailed)
      else if Duplicates(s.links, id, s.links[id].(kind := kind.kind)) then r == Err(DuplicateLink)
      else r.Ok? && Inv(r.value, setup) && r.value == s.(links := s.links[id := s.links[id].(kind := kind.kind)])
  {
    if id in s.links && kind.KindOf? {
      var link := s.links[id].(kind := kind.kind);
      if !Duplicates(s.links, id, link) {
        assert LinkOK(s.tasks, s.links[id]);
        AddedLinkKeeps(s.tasks, s.links, id, link);
        assert s.links[id := link].Keys == s.links.Keys;
        assert |s.links[id := link]| == |s.links[id := link].Keys|;
      }
    }
  }

  lemma DeleteLinkOutcome(s: State, setup: Setup, id: Id)
    requires Inv(s, setup)
    ensures var r := DeleteLink(s, id);
      if id !in s.links then r == Err(TaskNotFound)
      else r.Ok? && Inv(r.value, setup) && r.value == s.(links := s.links - {id})
  {
    if id in s.links {
      assert (s.links - {id}).Keys == s.links.Keys - {id};
      assert |s.links - {id}| == |(s.links - {id}).Keys|;
    }
  }
}
