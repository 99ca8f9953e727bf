/** The ordered lists of a board, as ScopeTasks and Subtasks of
    adapter/postgres/task_write.go read them: live rows, by position and then id. */
module Scopes {
  import opened Types
  import opened Position
  import opened Tasks

  /** The two orderings a task can belong to; nothing belongs to both. */
  datatype Scope = InQuadrant(quadrant: Quadrant) | UnderParent(parent: Id)

  type Rows = map<Id, Task>

  predicate Live(tasks: Rows, id: Id) {
    id in tasks && tasks[id].deletedAt.None?
  }

  predicate InScope(t: Task, scope: Scope) {
    match scope
    case InQuadrant(q) => t.parent.None? && t.quadrant == Some(q)
    case UnderParent(p) => t.parent == Some(p)
  }

  function Members(tasks: Rows, scope: Scope): set<Id> {
    set id | id in tasks && tasks[id].deletedAt.None? && InScope(tasks[id], scope)
  }

  function Slots(tasks: Rows, scope: Scope): set<Slot> {
    set id | id in Members(tasks, scope) :: Slot(id, tasks[id].position)
  }

  // ---------- sorting ----------

  lemma {:induction false} LeastExists(slots: set<Slot>)
    requires slots != {}
    ensures exists least :: least in slots && forall s :: s in slots ==> s == least || Before(least, s)
  {
    var any :| any in slots;
    if slots - {any} != {} {
      LeastExists(slots - {any});
      var least :| least in slots - {any} && forall s :: s in slots - {any} ==> s == least || Before(least, s);
      var winner := if Before(any, least) then any else least;
      forall s | s in slots
        ensures s == winner || Before(winner, s)
      {
        if s != any {
          assert s in slots - {any};
        }
      }
    } else {
      assert slots == {any};
    }
  }

  ghost predicate IsLeast(slots: set<Slot>, least: Slot) {
    least in slots && forall s :: s in slots ==> s == least || Before(least, s)
  }

  function Least(slots: set<Slot>): (least: Slot)
    requires slots != {}
    ensures IsLeast(slots, least)
  {
    LeastExists(slots);
    var least :| least in slots && forall s :: s in slots ==> s == least || Before(least, s);
    least
  }

  /** ORDER BY: the slots of a set, each once, in order. */
  ghost predicate IsSorted(l: seq<Slot>, slots: set<Slot>) {
    Ordered(l) && (forall s :: s in l <==> s in slots) && |l| == |slots|
  }

  /** The least slot in front of the sorted rest is the sorted whole. */
  lemma LeastFirst(l: seq<Slot>, slots: set<Slot>, least: Slot)
    requires IsLeast(slots, least) && IsSorted(l, slots - {least})
    ensures IsSorted([least] + l, slots)
  {
    forall i | 0 <= i < |l|
      ensures Before(least, l[i])
    {
      assert l[i] in l;
    }
  }

  lemma {:induction false} SortedExists(slots: set<Slot>)
    ensures exists l :: IsSorted(l, slots)
  {
    if slots == {} {
      assert IsSorted([], slots);
    } else {
      var least := Least(slots);
      SortedExists(slots - {least});
      var l :| IsSorted(l, slots - {least});
      LeastFirst(l, slots, least);
    }
  }

  /** The rows of a scope in the user's order. */
  ghost function Listing(tasks: Rows, scope: Scope): (r: seq<Slot>)
    ensures IsSorted(r, Slots(tasks, scope))
  {
    SortedExists(Slots(tasks, scope));
    var l :| IsSorted(l, Slots(tasks, scope));
    l
  }

  /** The query itself: it hands the rows out least first. */
  method ReadScope(tasks: Rows, scope: Scope) returns (l: seq<Slot>)
    ensures l == Listing(tasks, scope)
  {
    var left := Slots(tasks, scope);
    ghost var done: set<Slot> := {};
    l := [];
    while left != {}
      invariant done + left == Slots(tasks, scope) && done !! left
      invariant IsSorted(l, done)
      invariant forall a, b :: a in done && b in left ==> Before(a, b)
    {
      var least := Least(left);
      LastNext(l, done, least);
      left, done, l := left - {least}, done + {least}, l + [least];
    }
    assert done == Slots(tasks, scope);
    OrderedUnique(l, Listing(tasks, scope));
  }

  lemma LastNext(l: seq<Slot>, slots: set<Slot>, next: Slot)
    requires IsSorted(l, slots) && next !in slots && forall a :: a in slots ==> Before(a, next)
    ensures IsSorted(l + [next], slots + {next})
  {
    forall i | 0 <= i < |l|
      ensures Before(l[i], next)
    {
      assert l[i] in l;
    }
  }

  lemma ListingHolds(tasks: Rows, scope: Scope)
    ensures forall s :: s in Listing(tasks, scope) <==> s.id in Members(tasks, scope) && s.position == tasks[s.id].position
    ensures |Listing(tasks, scope)| == |Members(tasks, scope)|
  {
    var members, slots := Members(tasks, scope), Slots(tasks, scope);
    SlotCount(tasks, members);
    assert slots == SlotsOf(tasks, members);
    forall s
      ensures s in slots <==> s.id in members && s.position == tasks[s.id].position
    {
      if s.id in members && s.position == tasks[s.id].position {
        assert Slot(s.id, tasks[s.id].position) in slots;
      }
    }
  }

  ghost function SlotsOf(tasks: Rows, ids: set<Id>): set<Slot>
    requires ids <= tasks.Keys
  {
    set id | id in ids :: Slot(id, tasks[id].position)
  }

  lemma {:induction false} SlotCount(tasks: Rows, ids: set<Id>)
    requires ids <= tasks.Keys
    ensures |SlotsOf(tasks, ids)| == |ids|
  {
    if ids != {} {
      var id :| id in ids;
      SlotCount(tasks, ids - {id});
      assert SlotsOf(tasks, ids) == SlotsOf(tasks, ids - {id}) + {Slot(id, tasks[id].position)};
    }
  }

  /** A set has only one ordered listing. */
  lemma {:induction false} OrderedUnique(a: seq<Slot>, b: seq<Slot>)
    requires Ordered(a) && Ordered(b)
    requires forall s :: s in a <==> s in b
    ensures a == b
    decreases |a|
  {
    assert |b| > 0 ==> b[0] in a;
    if |a| > 0 {
      assert a[0] in b && b[0] in a;
      assert a[0] == b[0];
      TailMembers(a);
      TailMembers(b);
      OrderedUnique(a[1..], b[1..]);
    }
  }

  lemma TailMembers(a: seq<Slot>)
    requires Ordered(a) && |a| > 0
    ensures forall s :: s in a[1..] <==> s in a && s != a[0]
  {
    forall s | s in a && s != a[0]
      ensures s in a[1..]
    {
      var i :| 0 <= i < |a| && a[i] == s;
      assert a[1..][i - 1] == s;
    }
    forall i | 0 <= i < |a| - 1
      ensures a[1..][i] != a[0]
    {
      assert Before(a[0], a[i + 1]);
    }
  }
}
