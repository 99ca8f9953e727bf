/** What the repositories of back/internal/adapter/postgres do to one account's
    rows. A statement either takes effect whole or fails with a code. */
module Database {
  import opened Types
  import opened Position
  import opened Tasks
  import opened Scopes
  import opened Ledger
  import opened Board

  class Store {
    var tasks: Rows
    var ledger: seq<Entry>
    var stats: Stats
    var held: set<Id>
    var links: map<Id, Link>

    function Contents(): State
      reads this
    {
      State(tasks, ledger, stats, held, links)
    }

    constructor ()
      ensures Contents() == NEW_ACCOUNT
    {
      tasks, ledger, stats, held, links := map[], [], NEW_ACCOUNT.stats, {}, map[];
    }

    /** A transaction that fails leaves nothing behind. */
    method Restore(saved: State)
      modifies this
      ensures Contents() == saved
    {
      tasks, ledger, stats, held, links := saved.tasks, saved.ledger, saved.stats, saved.held, saved.links;
    }

    // ---------- tasks ----------

    method ByID(id: Id) returns (r: Result<Item>)
      ensures !Live(tasks, id) ==> r == Err(TaskNotFound)
      ensures Live(tasks, id) ==> r.Ok? && fresh(r.value) && r.value.Row() == tasks[id]
    {
      if id !in tasks || tasks[id].deletedAt.Some? {
        return Err(TaskNotFound);
      }
      var item := new Item(tasks[id]);
      return Ok(item);
    }

    method ScopeTasks(quadrant: Quadrant) returns (slots: seq<Slot>)
      ensures slots == Listing(tasks, InQuadrant(quadrant))
    {
      slots := ReadScope(tasks, InQuadrant(quadrant));
    }

    method Subtasks(parent: Id) returns (slots: seq<Slot>, rows: seq<Task>)
      ensures slots == Listing(tasks, UnderParent(parent))
      ensures |rows| == |slots|
      ensures forall i :: 0 <= i < |slots| ==> Live(tasks, slots[i].id) && rows[i] == tasks[slots[i].id]
    {
      slots := ReadScope(tasks, UnderParent(parent));
      ListingHolds(tasks, UnderParent(parent));
      forall i | 0 <= i < |slots|
        ensures Live(tasks, slots[i].id)
      {
        assert slots[i] in slots;
      }
      var now, order := tasks, slots;
      rows := seq(|order|, i requires 0 <= i < |order| && order[i].id in now => now[order[i].id]);
    }

    method Update(id: Id, item: Item) returns (r: Result<()>)
      modifies this
      ensures var rows := UpdateRow(old(tasks), id, old(item.Row()));
              match rows
              case Ok(t) => r == Ok(()) && Contents() == old(Contents()).(tasks := t)
              case Err(code) => r == Err(code) && Contents() == old(Contents())
    {
      var rows :- UpdateRow(tasks, id, item.Row());
      tasks := rows;
      return Ok(());
    }

    method Insert(id: Id, item: Item) returns (r: Result<()>)
      modifies this
      ensures match InsertRow(old(tasks), id, old(item.Row()))
              case Ok(t) => r == Ok(()) && Contents() == old(Contents()).(tasks := t)
              case Err(code) => r == Err(code) && Contents() == old(Contents())
    {
      var rows :- InsertRow(tasks, id, item.Row());
      tasks := rows;
      return Ok(());
    }

    method WriteBack(placements: seq<Slot>)
      modifies this
      ensures Contents() == old(Contents()).(tasks := Reposition(old(tasks), placements))
    {
      tasks := Reposition(tasks, placements);
    }

    method MarkDeleted(ids: seq<Id>, at: int) returns (r: Result<()>)
      modifies this
      ensures match SoftDelete(old(tasks), ids, at)
              case Ok(t) => r == Ok(()) && Contents() == old(Contents()).(tasks := t)
              case Err(code) => r == Err(code) && Contents() == old(Contents())
    {
      var rows :- SoftDelete(tasks, ids, at);
      tasks := rows;
      return Ok(());
    }

    // ---------- ledger and aggregate ----------

    method GrantCount(task: Id, source: Source) returns (n: nat)
      ensures n == Count(ledger, task, source)
    {
      n := Count(ledger, task, source);
    }

    /** The unique index refuses a grant number twice. */
    method RecordEntry(entry: Entry) returns (r: Result<()>)
      modifies this
      ensures match Record(old(ledger), entry)
              case Ok(l) => r == Ok(()) && Contents() == old(Contents()).(ledger := l)
              case Err(code) => r == Err(code) && Contents() == old(Contents())
    {
      var l :- Record(ledger, entry);
      ledger := l;
      return Ok(());
    }

    method Apply(delta: Delta) returns (after: Stats)
      modifies this
      ensures after == ApplyStats(old(stats), delta)
      ensures Contents() == old(Contents()).(stats := after)
    {
      stats := ApplyStats(stats, delta);
      after := stats;
    }

    method SetLevel(level: int)
      modifies this
      ensures Contents() == old(Contents()).(stats := old(stats).(level := level))
    {
      stats := stats.(level := level);
    }

    /** Says whether this call wrote the row. */
    method Unlock(id: Id) returns (first: bool)
      modifies this
      ensures first == (id !in old(held))
      ensures Contents() == old(Contents()).(held := old(held) + {id})
    {
      first := id !in held;
      held := held + {id};
    }

    // ---------- links ----------

    method InsertLink(id: Id, link: Link) returns (r: Result<()>)
      modifies this
      ensures Duplicates(old(links), id, link) ==> r == Err(DuplicateLink) && Contents() == old(Contents())
      ensures !Duplicates(old(links), id, link) && id in old(links) ==> r == Err(ValidationFailed) && Contents() == old(Contents())
      ensures !Duplicates(old(links), id, link) && id !in old(links)
              ==> r == Ok(()) && Contents() == old(Contents()).(links := old(links)[id := link])
    {
      if Duplicates(links, id, link) {
        return Err(DuplicateLink);
      }
      if id in links {
        return Err(ValidationFailed);
      }
      links := links[id := link];
      return Ok(());
    }

    method UpdateLink(id: Id, link: Link) returns (r: Result<()>)
      modifies this
      ensures Duplicates(old(links), id, link) ==> r == Err(DuplicateLink) && Contents() == old(Contents())
      ensures !Duplicates(old(links), id, link)
              ==> r == Ok(()) && Contents() == old(Contents()).(links := old(links)[id := link])
    {
      if Duplicates(links, id, link) {
        return Err(DuplicateLink);
      }
      links := links[id := link];
      return Ok(());
    }

    method RemoveLink(id: Id) returns (r: Result<()>)
      modifies this
      ensures id !in old(links) ==> r == Err(TaskNotFound) && Contents() == old(Contents())
      ensures id in old(links) ==> r == Ok(()) && Contents() == old(Contents()).(links := old(links) - {id})
    {
      if id !in links {
        return Err(TaskNotFound);
      }
      links := links - {id};
      return Ok(());
    }

    method RemoveLinksOf(ids: seq<Id>)
      modifies this
      ensures Contents() == old(Contents()).(links := LinksWithout(old(links), ids))
    {
      links := LinksWithout(links, ids);
    }
  }
}
