/** Events of back/internal/app/profile/service.go over the query of
    back/internal/adapter/postgres/activity_repo.go: history by keyset, newest
    first, while new events keep arriving; and the cursor it hands out. */
module Pagination {
  import opened Types
  import opened Base64

  const EVENTS_PER_PAGE: nat := 30
  const MAX_PER_PAGE: nat := 100

  /** A row by the key it is ordered on. */
  datatype Event = Event(at: int, id: nat)

  predicate Below(a: Event, b: Event) {
    a.at < b.at || (a.at == b.at && a.id < b.id)
  }

  ghost predicate Descending(rows: seq<Event>) {
    forall i, j :: 0 <= i < j < |rows| ==> Below(rows[j], rows[i])
  }

  // ---------- the query ----------

  predicate IsNewest(rows: set<Event>, newest: Event) {
    newest in rows && forall e :: e in rows ==> e == newest || Below(e, newest)
  }

  lemma {:induction false} NewestExists(rows: set<Event>)
    requires rows != {}
    ensures exists newest :: IsNewest(rows, newest)
  {
    var any :| any in rows;
    var rest := rows - {any};
    if rest == {} {
      assert rows == {any};
      assert IsNewest(rows, any);
    } else {
      NewestExists(rest);
      var best :| IsNewest(rest, best);
      var winner := if Below(any, best) then best else any;
      forall e | e in rows
        ensures e == winner || Below(e, winner)
      {
        assert e != any ==> e in rest;
      }
      assert IsNewest(rows, winner);
    }
  }

  ghost function Newest(rows: set<Event>): (newest: Event)
    requires rows != {}
    ensures IsNewest(rows, newest)
  {
    NewestExists(rows);
    var newest :| IsNewest(rows, newest);
    newest
  }

  /** ORDER BY occurred_at DESC, id DESC LIMIT n. */
  ghost function Top(rows: set<Event>, n: nat): seq<Event>
    decreases n
  {
    if n == 0 || rows == {} then [] else [Newest(rows)] + Top(rows - {Newest(rows)}, n - 1)
  }

  ghost function Matching(rows: set<Event>, after: Option<Event>): set<Event> {
    set e | e in rows && (after.Some? ==> Below(e, after.value))
  }

  /** What the query returns: descending rows of the set, and nothing left out above any of them. */
  lemma {:induction false} TopHolds(rows: set<Event>, n: nat)
    ensures Descending(Top(rows, n))
    ensures forall e :: e in Top(rows, n) ==> e in rows
    ensures |Top(rows, n)| == if |rows| < n then |rows| else n
    ensures forall e, t :: e in rows && e !in Top(rows, n) && t in Top(rows, n) ==> Below(e, t)
    ensures |Top(rows, n)| < n ==> forall e :: e in rows ==> e in Top(rows, n)
  {
    if n > 0 && rows != {} {
      var newest := Newest(rows);
      TopHolds(rows - {newest}, n - 1);
      NewestInFront(Top(rows - {newest}, n - 1), rows - {newest}, newest);
    }
  }

  lemma NewestInFront(top: seq<Event>, rest: set<Event>, newest: Event)
    requires Descending(top) && forall e :: e in top ==> e in rest
    requires forall e :: e in rest ==> Below(e, newest)
    ensures Descending([newest] + top)
  {
    forall i, j | 0 <= i < j < |[newest] + top|
      ensures Below(([newest] + top)[j], ([newest] + top)[i])
    {
      assert top[j - 1] in top;
    }
  }

  // ---------- one page ----------

  datatype Page = Page(entries: seq<Event>, next: Option<Event>)

  function Clamped(limit: int): (n: nat)
    ensures 1 <= n <= MAX_PER_PAGE
  {
    if limit <= 0 then EVENTS_PER_PAGE else if limit > MAX_PER_PAGE then MAX_PER_PAGE else limit
  }

  /** One row past the page is asked for, to learn whether there is more. */
  ghost function PageOf(rows: set<Event>, after: Option<Event>, limit: int): Page {
    var n := Clamped(limit);
    var found := Top(Matching(rows, after), n + 1);
    if |found| > n then Page(found[..n], Some(found[n - 1])) else Page(found, None)
  }

  /** A page continues downwards, leaves nothing out, and says truly whether it is the last. */
  lemma PageHolds(rows: set<Event>, after: Option<Event>, limit: int)
    ensures var p := PageOf(rows, after, limit);
            && Descending(p.entries)
            && (forall e :: e in p.entries ==> e in Matching(rows, after))
            && (p.next.Some? ==>
                  && |p.entries| == Clamped(limit) && p.next == Some(p.entries[|p.entries| - 1])
                  && (forall e :: e in Matching(rows, after) && e !in p.entries ==> Below(e, p.next.value)))
            && (p.next.None? ==> forall e :: e in Matching(rows, after) ==> e in p.entries)
  {
    var n := Clamped(limit);
    var matching := Matching(rows, after);
    var found := Top(matching, n + 1);
    TopHolds(matching, n + 1);
    if |found| > n {
      forall e | e in matching && e !in found[..n]
        ensures Below(e, found[n - 1])
      {
        assert found[n - 1] in found;
        if e in found {
          PastTheCut(found, n, e);
        }
      }
    }
  }

  /** A page is as long as was asked for, within 1 and 100, 30 where nothing was
      asked for, unless there are not so many rows. */
  lemma PageSize(rows: set<Event>, after: Option<Event>, limit: int)
    ensures var size, there := |PageOf(rows, after, limit).entries|, |Matching(rows, after)|;
            && (limit <= 0 ==> size == if there < 30 then there else 30)
            && (1 <= limit <= 100 ==> size == if there < limit then there else limit)
            && (limit > 100 ==> size == if there < 100 then there else 100)
  {
    TopHolds(Matching(rows, after), Clamped(limit) + 1);
  }

  lemma PastTheCut(found: seq<Event>, n: nat, e: Event)
    requires Descending(found) && 0 < n <= |found| && e in found && e !in found[..n]
    ensures Below(e, found[n - 1])
  {
    assert found == found[..n] + found[n..];
    var j :| 0 <= j < |found| - n && found[n..][j] == e;
    assert Below(found[n + j], found[n - 1]);
  }

  // ---------- following the cursor ----------

  /** What a client sees that follows the keys of its cursors, the k-th request
      meeting the k-th table and asking for the k-th number of rows. */
  ghost function Follow(tables: seq<set<Event>>, after: Option<Event>, limits: seq<int>): seq<Event>
    requires |limits| == |tables|
    decreases |tables|
  {
    if |tables| == 0 then []
    else
      var p := PageOf(tables[0], after, limits[0]);
      if p.next.None? then p.entries else p.entries + Follow(tables[1..], p.next, limits[1..])
  }

  /** The client came to a page without a cursor. */
  ghost predicate Ended(tables: seq<set<Event>>, after: Option<Event>, limits: seq<int>)
    requires |limits| == |tables|
    decreases |tables|
  {
    |tables| > 0
    && var p := PageOf(tables[0], after, limits[0]);
       p.next.None? || Ended(tables[1..], p.next, limits[1..])
  }

  /** Events are only ever added. */
  ghost predicate Growing(tables: seq<set<Event>>) {
    forall i, j :: 0 <= i <= j < |tables| ==> tables[i] <= tables[j]
  }

  lemma {:induction false} FollowDescends(tables: seq<set<Event>>, after: Option<Event>, limits: seq<int>)
    requires |limits| == |tables|
    ensures Descending(Follow(tables, after, limits))
    ensures after.Some? ==> forall e :: e in Follow(tables, after, limits) ==> Below(e, after.value)
    decreases |tables|
  {
    if |tables| > 0 {
      var p := PageOf(tables[0], after, limits[0]);
      PageHolds(tables[0], after, limits[0]);
      if p.next.Some? {
        var rest := Follow(tables[1..], p.next, limits[1..]);
        FollowDescends(tables[1..], p.next, limits[1..]);
        assert p.next.value in p.entries;
        JoinDescends(p.entries, rest);
      }
    }
  }

  lemma JoinDescends(front: seq<Event>, rest: seq<Event>)
    requires Descending(front) && Descending(rest) && |front| > 0
    requires forall e :: e in rest ==> Below(e, front[|front| - 1])
    ensures Descending(front + rest)
    ensures forall e :: e in rest ==> forall f :: f in front ==> Below(e, f)
  {
    forall e, f | e in rest && f in front
      ensures Below(e, f)
    {
      var i :| 0 <= i < |front| && front[i] == f;
      assert i < |front| - 1 ==> Below(front[|front| - 1], front[i]);
    }
    var all := front + rest;
    forall i, j | 0 <= i < j < |all|
      ensures Below(all[j], all[i])
    {
      if i < |front| <= j {
        assert front[i] in front && rest[j - |front|] in rest;
      }
    }
  }

  lemma {:induction false} FollowFindsAll(tables: seq<set<Event>>, after: Option<Event>, limits: seq<int>, e: Event)
    requires |limits| == |tables|
    requires Growing(tables) && Ended(tables, after, limits)
    requires e in Matching(tables[0], after)
    ensures e in Follow(tables, after, limits)
    decreases |tables|
  {
    var p := PageOf(tables[0], after, limits[0]);
    PageHolds(tables[0], after, limits[0]);
    if p.next.Some? && e !in p.entries {
      assert tables[0] <= tables[1];
      assert Growing(tables[1..]);
      FollowFindsAll(tables[1..], p.next, limits[1..], e);
    }
  }

  function Times(rows: seq<Event>, e: Event): nat {
    if |rows| == 0 then 0 else Times(rows[..|rows| - 1], e) + (if rows[|rows| - 1] == e then 1 else 0)
  }

  lemma {:induction false} OnceInDescending(rows: seq<Event>, e: Event)
    requires Descending(rows)
    ensures Times(rows, e) == if e in rows then 1 else 0
  {
    if |rows| > 0 {
      var front := rows[..|rows| - 1];
      OnceInDescending(front, e);
      assert rows == front + [rows[|rows| - 1]];
      forall i | 0 <= i < |front|
        ensures front[i] != rows[|rows| - 1]
      {
        assert Below(rows[|rows| - 1], rows[i]);
      }
    }
  }

  lemma MatchingShrinks(rows: set<Event>, more: set<Event>, after: Option<Event>, limit: int)
    requires more <= rows && PageOf(more, after, limit).next.Some?
    ensures |Matching(rows, PageOf(more, after, limit).next)| < |Matching(rows, after)|
  {
    var p := PageOf(more, after, limit);
    PageHolds(more, after, limit);
    var last := p.entries[|p.entries| - 1];
    assert last in p.entries;
    assert last in Matching(rows, after) && last !in Matching(rows, p.next);
    SubsetSize(Matching(rows, p.next), Matching(rows, after) - {last});
  }

  lemma {:induction false} SubsetSize(a: set<Event>, b: set<Event>)
    requires a <= b
    ensures |a| <= |b|
  {
    if e :| e in a {
      SubsetSize(a - {e}, b - {e});
    }
  }

  lemma {:induction false} KeysReachTheEnd(tables: seq<set<Event>>, after: Option<Event>, limits: seq<int>, ever: set<Event>)
    requires |limits| == |tables|
    requires forall i :: 0 <= i < |tables| ==> tables[i] <= ever
    requires |tables| > |Matching(ever, after)|
    ensures Ended(tables, after, limits)
    decreases |tables|
  {
    var p := PageOf(tables[0], after, limits[0]);
    if p.next.Some? {
      MatchingShrinks(ever, tables[0], after, limits[0]);
      KeysReachTheEnd(tables[1..], p.next, limits[1..], ever);
    }
  }

  // ---------- the cursor ----------

  const SPACE: Byte := 32

  /** How instants and ids are spelled: each reads back, and neither contains a space. */
  datatype Spelling = Spelling(printTime: int -> seq<Byte>, parseTime: seq<Byte> -> Option<int>,
                               printId: nat -> seq<Byte>, parseId: seq<Byte> -> Option<nat>)

  ghost predicate Faithful(s: Spelling) {
    && (forall t :: s.parseTime(s.printTime(t)) == Some(t) && SPACE !in s.printTime(t))
    && (forall i: nat :: s.parseId(s.printId(i)) == Some(i))
  }

  function EncodeCursor(s: Spelling, cursor: Event): string {
    Encode(Url, s.printTime(cursor.at) + [SPACE] + s.printId(cursor.id))
  }

  /** strings.Cut at the first space. */
  function Cut(raw: seq<Byte>): Option<(seq<Byte>, seq<Byte>)> {
    if |raw| == 0 then None
    else if raw[0] == SPACE then Some(([], raw[1..]))
    else
      var rest := Cut(raw[1..]);
      if rest.None? then None else Some(([raw[0]] + rest.value.0, rest.value.1))
  }

  function DecodeCursor(s: Spelling, value: string): Result<Option<Event>> {
    if value == "" then Ok(None)
    else
      var raw := Decode(Url, value);
      if raw.None? then Err(ValidationFailed)
      else
        var parts := Cut(raw.value);
        if parts.None? then Err(ValidationFailed)
        else
          var at, id := s.parseTime(parts.value.0), s.parseId(parts.value.1);
          if at.None? || id.None? then Err(ValidationFailed) else Ok(Some(Event(at.value, id.value)))
  }

  lemma {:induction false} CutUndoes(head: seq<Byte>, tail: seq<Byte>)
    requires SPACE !in head
    ensures Cut(head + [SPACE] + tail) == Some((head, tail))
  {
    var raw := head + [SPACE] + tail;
    if |head| == 0 {
      assert raw[1..] == tail;
    } else {
      CutUndoes(head[1..], tail);
      assert raw[1..] == head[1..] + [SPACE] + tail;
      assert [head[0]] + head[1..] == head;
    }
  }

  /** A cursor handed out is understood when it comes back. */
  lemma DecodeUndoesEncode(s: Spelling, cursor: Event)
    requires Faithful(s)
    ensures DecodeCursor(s, EncodeCursor(s, cursor)) == Ok(Some(cursor))
  {
    var raw := s.printTime(cursor.at) + [SPACE] + s.printId(cursor.id);
    Base64.DecodeUndoesEncode(Url, raw);
    CutUndoes(s.printTime(cursor.at), s.printId(cursor.id));
  }

  lemma {:induction false} CutAtTheFirst(raw: seq<Byte>)
    ensures match Cut(raw)
            case None => 32 !in raw
            case Some((head, tail)) => raw == head + [32] + tail && 32 !in head
  {
    if |raw| > 0 && raw[0] != SPACE {
      CutAtTheFirst(raw[1..]);
      assert raw == [raw[0]] + raw[1..];
      if Cut(raw[1..]).Some? {
        var parts := Cut(raw[1..]).value;
        assert raw == [raw[0]] + parts.0 + [32] + parts.1;
      }
    }
  }

  /** What a cursor from outside must be: unpadded base64url of an instant, one
      space and an id. The empty cursor is the first page; any other is refused. */
  lemma CursorIsReadExactly(s: Spelling, value: string, at: int, id: nat)
    ensures DecodeCursor(s, value) == Ok(None) <==> value == ""
    ensures DecodeCursor(s, value) == Ok(Some(Event(at, id))) <==>
              && value != ""
              && exists head, tail :: Decode(Url, value) == Some(head + [32] + tail) && 32 !in head
                   && s.parseTime(head) == Some(at) && s.parseId(tail) == Some(id)
  {
    if value != "" && Decode(Url, value).Some? {
      CutAtTheFirst(Decode(Url, value).value);
      forall head, tail | Decode(Url, value) == Some(head + [32] + tail) && 32 !in head
        ensures Cut(Decode(Url, value).value) == Some((head, tail))
      {
        CutUndoes(head, tail);
      }
      if DecodeCursor(s, value) == Ok(Some(Event(at, id))) {
        var parts := Cut(Decode(Url, value).value).value;
        assert Decode(Url, value) == Some(parts.0 + [32] + parts.1);
      }
    }
  }

  // ---------- following NextCursor ----------

  /** What one request answers: a page and the cursor that continues it, empty at the end. */
  ghost function Answer(rows: set<Event>, s: Spelling, cursor: string, limit: int): Result<(seq<Event>, string)> {
    var after :- DecodeCursor(s, cursor);
    var p := PageOf(rows, after, limit);
    Ok((p.entries, if p.next.Some? then EncodeCursor(s, p.next.value) else ""))
  }

  /** What a client sees that sends back each cursor it was given. A refused cursor would end it. */
  ghost function FollowCursors(tables: seq<set<Event>>, s: Spelling, cursor: string, limits: seq<int>): seq<Event>
    requires |limits| == |tables|
    decreases |tables|
  {
    if |tables| == 0 then []
    else
      var r := Answer(tables[0], s, cursor, limits[0]);
      if r.Err? then []
      else if r.value.1 == "" then r.value.0
      else r.value.0 + FollowCursors(tables[1..], s, r.value.1, limits[1..])
  }

  /** It came to an answer without a cursor, and none was refused on the way. */
  ghost predicate CameToTheEnd(tables: seq<set<Event>>, s: Spelling, cursor: string, limits: seq<int>)
    requires |limits| == |tables|
    decreases |tables|
  {
    |tables| > 0
    && var r := Answer(tables[0], s, cursor, limits[0]);
       r.Ok? && (r.value.1 == "" || CameToTheEnd(tables[1..], s, r.value.1, limits[1..]))
  }

  function Spelled(s: Spelling, after: Option<Event>): string {
    if after.Some? then EncodeCursor(s, after.value) else ""
  }

  lemma SpelledReadsBack(s: Spelling, after: Option<Event>)
    requires Faithful(s)
    ensures DecodeCursor(s, Spelled(s, after)) == Ok(after)
    ensures after.Some? ==> Spelled(s, after) != ""
  {
    if after.Some? {
      DecodeUndoesEncode(s, after.value);
      Base64.DecodeUndoesEncode(Url, s.printTime(after.value.at) + [SPACE] + s.printId(after.value.id));
    }
  }

  /** Cursors as strings and cursors as keys are followed alike. */
  lemma {:induction false} StringsFollowKeys(tables: seq<set<Event>>, s: Spelling, after: Option<Event>, limits: seq<int>)
    requires Faithful(s) && |limits| == |tables|
    ensures FollowCursors(tables, s, Spelled(s, after), limits) == Follow(tables, after, limits)
    ensures CameToTheEnd(tables, s, Spelled(s, after), limits) <==> Ended(tables, after, limits)
    decreases |tables|
  {
    if |tables| > 0 {
      SpelledReadsBack(s, after);
      var p := PageOf(tables[0], after, limits[0]);
      if p.next.Some? {
        SpelledReadsBack(s, p.next);
        StringsFollowKeys(tables[1..], s, p.next, limits[1..]);
      }
    }
  }

  /** Later instants first, and of one instant the greater id. */
  ghost predicate NewestFirst(rows: seq<Event>) {
    forall i, j :: 0 <= i < j < |rows| ==> rows[i].at > rows[j].at || (rows[i].at == rows[j].at && rows[i].id > rows[j].id)
  }

  /** Following NextCursor from the first request to the end shows every event
      that was there at that request exactly once, newest first, whatever was
      added meanwhile and however many rows each request asked for. */
  lemma EveryEventOnce(tables: seq<set<Event>>, s: Spelling, limits: seq<int>, e: Event)
    requires Faithful(s) && |limits| == |tables|
    requires Growing(tables) && CameToTheEnd(tables, s, "", limits) && e in tables[0]
    ensures Times(FollowCursors(tables, s, "", limits), e) == 1
    ensures NewestFirst(FollowCursors(tables, s, "", limits))
  {
    StringsFollowKeys(tables, s, None, limits);
    FollowDescends(tables, None, limits);
    FollowFindsAll(tables, None, limits, e);
    OnceInDescending(Follow(tables, None, limits), e);
  }

  /** The client gets there: when no more than so many events ever exist, one
      request more than that is enough, and no cursor is refused. */
  lemma TheEndIsReached(tables: seq<set<Event>>, s: Spelling, limits: seq<int>, ever: set<Event>)
    requires Faithful(s) && |limits| == |tables|
    requires (forall i :: 0 <= i < |tables| ==> tables[i] <= ever) && |tables| > |ever|
    ensures CameToTheEnd(tables, s, "", limits)
  {
    assert Matching(ever, None) == ever;
    KeysReachTheEnd(tables, None, limits, ever);
    StringsFollowKeys(tables, s, None, limits);
  }

  // ---------- the use case ----------

  method ReadEvents(rows: set<Event>, after: Option<Event>, limit: nat) returns (entries: seq<Event>)
    ensures entries == Top(Matching(rows, after), limit)
  {
    var left := set e | e in rows && (after.Some? ==> Below(e, after.value));
    entries := [];
    while |entries| < limit && left != {}
      invariant |entries| <= limit
      invariant entries + Top(left, limit - |entries|) == Top(Matching(rows, after), limit)
      decreases left
    {
      NewestExists(left);
      var newest :| newest in left && IsNewest(left, newest);
      TopStep(left, newest, limit - |entries|);
      entries, left := entries + [newest], left - {newest};
    }
  }

  lemma TopStep(rows: set<Event>, newest: Event, n: nat)
    requires IsNewest(rows, newest) && n > 0
    ensures Top(rows, n) == [newest] + Top(rows - {newest}, n - 1)
  {
    assert newest == Newest(rows);
  }

  /** One request: a page and, if there is more, the cursor that continues it. */
  method Events(rows: set<Event>, s: Spelling, cursor: string, limit: int) returns (r: Result<(seq<Event>, string)>)
    ensures r == Answer(rows, s, cursor, limit)
  {
    var n := limit;
    if n <= 0 {
      n := EVENTS_PER_PAGE;
    }
    if n > MAX_PER_PAGE {
      n := MAX_PER_PAGE;
    }
    var after :- DecodeCursor(s, cursor);
    var entries := ReadEvents(rows, after, n + 1);
    if |entries| > n {
      return Ok((entries[..n], EncodeCursor(s, entries[n - 1])));
    }
    return Ok((entries, ""));
  }
}
