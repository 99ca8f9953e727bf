/** back/internal/domain/task/position.go: integer positions with gaps.

    `Place` works in int32 and renumbers a scope when a gap is used up. The
    lemmas say that, whatever it decided, the list the user sees is the plain
    list insertion at the neighbour that was named. */
module Position {
  import opened Types

  const POSITION_GAP := 1024
  const POSITION_CEILING := 0x4000_0000
  /** The largest scope the arithmetic is meant for: renumbered, it still ends at the ceiling. */
  const SCOPE_LIMIT := 0x10_0000

  /** Two's-complement truncation to 32 bits, as Go's int32 conversions and operators do it. */
  function Wrap32(x: int): (r: int)
    ensures -0x8000_0000 <= r < 0x8000_0000
    ensures -0x8000_0000 <= x < 0x8000_0000 ==> r == x
  {
    (x + 0x8000_0000) % 0x1_0000_0000 - 0x8000_0000
  }

  /** A task as its scope lists it; also a placement to write back. */
  datatype Slot = Slot(id: Id, position: int)

  datatype Placed = Placed(position: int, placements: seq<Slot>)

  /** ORDER BY position ASC, id ASC. */
  predicate Before(a: Slot, b: Slot) {
    a.position < b.position || (a.position == b.position && a.id < b.id)
  }

  ghost predicate Ordered(slots: seq<Slot>) {
    forall i, j :: 0 <= i < j < |slots| ==> Before(slots[i], slots[j])
  }

  ghost predicate StrictlyIncreasing(slots: seq<Slot>) {
    forall i, j :: 0 <= i < j < |slots| ==> slots[i].position < slots[j].position
  }

  ghost predicate InRange(slots: seq<Slot>) {
    forall i :: 0 <= i < |slots| ==> 1 <= slots[i].position <= POSITION_CEILING
  }

  ghost function Ids(slots: seq<Slot>): (ids: seq<Id>)
    ensures |ids| == |slots|
    ensures forall i :: 0 <= i < |ids| ==> ids[i] == slots[i].id
  {
    seq(|slots|, i requires 0 <= i < |slots| => slots[i].id)
  }

  // ---------- what Place decides ----------

  /** The first place an id occurs, or -1. */
  function IndexFrom(ordered: seq<Slot>, id: Id, from: nat): (r: int)
    requires from <= |ordered|
    ensures -1 <= r < |ordered|
    ensures r >= 0 ==> from <= r && ordered[r].id == id && forall i :: from <= i < r ==> ordered[i].id != id
    ensures r < 0 ==> forall i :: from <= i < |ordered| ==> ordered[i].id != id
    decreases |ordered| - from
  {
    if from == |ordered| then -1
    else if ordered[from].id == id then from
    else IndexFrom(ordered, id, from + 1)
  }

  /** Where in the list the named neighbour puts the task. */
  function TargetIndex(ordered: seq<Slot>, before: Option<Id>, after: Option<Id>): (r: Result<nat>)
    ensures r.Ok? ==> r.value <= |ordered|
  {
    if before.Some? && after.Some? then Err(ValidationFailed)
    else if before.Some? then
      var found := IndexFrom(ordered, before.value, 0);
      if found < 0 then Err(TaskNotFound) else Ok(found)
    else if after.Some? then
      var found := IndexFrom(ordered, after.value, 0);
      if found < 0 then Err(TaskNotFound) else Ok(found + 1)
    else Ok(|ordered|)
  }

  function Lower(ordered: seq<Slot>, index: nat): int
    requires index <= |ordered|
  {
    if index > 0 then ordered[index - 1].position else 0
  }

  function Upper(ordered: seq<Slot>, index: nat): int
    requires index <= |ordered|
  {
    if index < |ordered| then ordered[index].position else Wrap32(Lower(ordered, index) + 2 * POSITION_GAP)
  }

  predicate MustRenumber(ordered: seq<Slot>, index: nat)
    requires index <= |ordered|
  {
    var lower, upper := Lower(ordered, index), Upper(ordered, index);
    Wrap32(upper - lower) < 2 || upper > POSITION_CEILING
  }

  /** The position of the n-th place of a renumbered scope. */
  function Renumbered(place: nat): int {
    Wrap32(Wrap32(place + 1) * POSITION_GAP)
  }

  function Midpoint(lower: int, upper: int): int {
    Wrap32(lower + Wrap32(upper - lower) / 2)
  }

  function Shift(i: nat, index: nat): nat {
    if i >= index then i + 1 else i
  }

  /** A fresh gap between every two tasks, the place at `index` left free. */
  function RenumberAround(ordered: seq<Slot>, index: nat): Placed
    requires index <= |ordered|
  {
    Placed(Renumbered(index),
           seq(|ordered|, i requires 0 <= i < |ordered| => Slot(ordered[i].id, Renumbered(Shift(i, index)))))
  }

  function PlaceAt(ordered: seq<Slot>, index: nat): (r: Placed)
    requires index <= |ordered|
    ensures |r.placements| == 0 || |r.placements| == |ordered|
  {
    if MustRenumber(ordered, index) then RenumberAround(ordered, index)
    else
      Placed(Midpoint(Lower(ordered, index), Upper(ordered, index)), [])
  }

  function Placing(ordered: seq<Slot>, before: Option<Id>, after: Option<Id>): Result<Placed> {
    var index :- TargetIndex(ordered, before, after);
    Ok(PlaceAt(ordered, index))
  }

  /** Place is refused exactly for two neighbours at once or for one that is not
      in the list; otherwise the place is right before, right after, or last. */
  lemma PlacingAnswers(ordered: seq<Slot>, before: Option<Id>, after: Option<Id>)
    ensures var r := TargetIndex(ordered, before, after);
      && (r.Ok? <==> Placing(ordered, before, after).Ok?)
      && (if before.Some? && after.Some? then Placing(ordered, before, after) == Err(ValidationFailed)
          else if before.Some? then
            if r.Ok? then r.value < |ordered| && ordered[r.value].id == before.value
            else Placing(ordered, before, after) == Err(TaskNotFound) && forall s :: s in ordered ==> s.id != before.value
          else if after.Some? then
            if r.Ok? then 0 < r.value && ordered[r.value - 1].id == after.value
            else Placing(ordered, before, after) == Err(TaskNotFound) && forall s :: s in ordered ==> s.id != after.value
          else r == Ok(|ordered|))
  {
  }

  // ---------- the methods ----------

  method IndexOf(ordered: seq<Slot>, id: Id) returns (r: int)
    ensures r == IndexFrom(ordered, id, 0)
  {
    var i := 0;
    while i < |ordered|
      invariant 0 <= i <= |ordered|
      invariant IndexFrom(ordered, id, 0) == IndexFrom(ordered, id, i)
    {
      if ordered[i].id == id {
        return i;
      }
      i := i + 1;
    }
    return -1;
  }

  method Rebalance(ordered: seq<Slot>, index: nat) returns (r: Placed)
    requires index <= |ordered|
    ensures r == RenumberAround(ordered, index)
  {
    var placements: seq<Slot> := [];
    for i := 0 to |ordered|
      invariant |placements| == i
      invariant forall k :: 0 <= k < i ==> placements[k] == Slot(ordered[k].id, Renumbered(Shift(k, index)))
    {
      var slot := i;
      if i >= index {
        slot := i + 1;
      }
      placements := placements + [Slot(ordered[i].id, Wrap32(Wrap32(slot + 1) * POSITION_GAP))];
    }
    r := Placed(Wrap32(Wrap32(index + 1) * POSITION_GAP), placements);
  }

  method PlaceBetween(ordered: seq<Slot>, index: nat) returns (r: Result<Placed>)
    requires index <= |ordered|
    ensures r == Ok(PlaceAt(ordered, index))
  {
    var lower := 0;
    if index > 0 {
      lower := ordered[index - 1].position;
    }
    var upper := Wrap32(lower + 2 * POSITION_GAP);
    if index < |ordered| {
      upper := ordered[index].position;
    }
    assert lower == Lower(ordered, index) && upper == Upper(ordered, index);
    if Wrap32(upper - lower) < 2 || upper > POSITION_CEILING {
      var placed := Rebalance(ordered, index);
      return Ok(placed);
    }
    return Ok(Placed(Wrap32(lower + Wrap32(upper - lower) / 2), []));
  }

  method Place(ordered: seq<Slot>, before: Option<Id>, after: Option<Id>) returns (r: Result<Placed>)
    ensures r == Placing(ordered, before, after)
  {
    if before.Some? && after.Some? {
      return Err(ValidationFailed);
    }
    var index := |ordered|;
    if before.Some? {
      var found := IndexOf(ordered, before.value);
      if found < 0 {
        return Err(TaskNotFound);
      }
      index := found;
    } else if after.Some? {
      var found := IndexOf(ordered, after.value);
      if found < 0 {
        return Err(TaskNotFound);
      }
      index := found + 1;
    }

    r := PlaceBetween(ordered, index);
  }

  /** move.go `without`: compacts the slice it was given, keeping the order. */
  method Without(scope: array<Slot>, id: Id) returns (kept: nat)
    modifies scope
    ensures kept <= scope.Length
    ensures scope[..kept] == Removed(old(scope[..]), id)
  {
    kept := 0;
    for i := 0 to scope.Length
      invariant kept <= i
      invariant scope[i..] == old(scope[..])[i..]
      invariant scope[..kept] == Removed(old(scope[..])[..i], id)
    {
      ghost var was := old(scope[..]);
      assert was[..i + 1][..i] == was[..i];
      assert scope[i] == was[i];
      if scope[i].id != id {
        scope[kept] := scope[i];
        kept := kept + 1;
      }
    }
    assert old(scope[..])[..scope.Length] == old(scope[..]);
  }

  function Removed(slots: seq<Slot>, id: Id): (r: seq<Slot>) {
    if |slots| == 0 then []
    else
      var front := Removed(slots[..|slots| - 1], id);
      if slots[|slots| - 1].id == id then front else front + [slots[|slots| - 1]]
  }

  // ---------- refinement of list insertion ----------

  /** The scope after the callers wrote the placements and the task itself. */
  ghost function After(ordered: seq<Slot>, index: nat, item: Id): seq<Slot>
    requires index <= |ordered|
  {
    var placed := PlaceAt(ordered, index);
    var siblings := if |placed.placements| == 0 then ordered else placed.placements;
    siblings[..index] + [Slot(item, placed.position)] + siblings[index..]
  }

  /** A scope as the database lists it: sorted, inside the column's intended range, not absurdly long. */
  ghost predicate Sound(ordered: seq<Slot>) {
    Ordered(ordered) && InRange(ordered) && |ordered| + 1 <= SCOPE_LIMIT
  }

  lemma RenumberedExactly(place: nat)
    requires place < SCOPE_LIMIT
    ensures Renumbered(place) == (place + 1) * POSITION_GAP
    ensures 1 <= Renumbered(place) <= POSITION_CEILING
  {
  }

  /** The task lands strictly between its two neighbours. */
  lemma MidpointBetween(ordered: seq<Slot>, index: nat)
    requires Sound(ordered) && index <= |ordered| && !MustRenumber(ordered, index)
    ensures Lower(ordered, index) < PlaceAt(ordered, index).position < Upper(ordered, index)
    ensures 1 <= PlaceAt(ordered, index).position <= POSITION_CEILING
  {
    var lower, upper := Lower(ordered, index), Upper(ordered, index);
    assert 0 <= lower <= POSITION_CEILING;
    assert 1 <= upper <= POSITION_CEILING + 2 * POSITION_GAP;
    assert Wrap32(upper - lower) == upper - lower;
  }

  /** In a sound scope no int32 operation of Place or of the renumbering leaves
      its range: each is the exact integer. */
  lemma NoOperationWraps(ordered: seq<Slot>, index: nat)
    requires Sound(ordered) && index <= |ordered|
    ensures var lower, upper := Lower(ordered, index), Upper(ordered, index);
            && (index == |ordered| ==> upper == lower + 2 * POSITION_GAP)
            && Wrap32(upper - lower) == upper - lower
            && Midpoint(lower, upper) == lower + (upper - lower) / 2
    ensures forall i: nat :: i <= |ordered| ==> Renumbered(i) == (i + 1) * POSITION_GAP
  {
    var lower, upper := Lower(ordered, index), Upper(ordered, index);
    assert 0 <= lower <= POSITION_CEILING && 1 <= upper <= POSITION_CEILING + 2 * POSITION_GAP;
    forall i: nat | i <= |ordered|
      ensures Renumbered(i) == (i + 1) * POSITION_GAP
    {
      RenumberedExactly(i);
    }
  }

  /** The i-th task of the scope after the write. */
  lemma AfterAt(ordered: seq<Slot>, index: nat, item: Id, i: nat)
    requires index <= |ordered| && i <= |ordered|
    ensures |After(ordered, index, item)| == |ordered| + 1
    ensures var out, p := After(ordered, index, item), PlaceAt(ordered, index).position;
            out[i] == if i == index then Slot(item, p)
                      else var j := if i < index then i else i - 1;
                           if MustRenumber(ordered, index) then Slot(ordered[j].id, Renumbered(i)) else ordered[j]
  {
    if MustRenumber(ordered, index) {
      assert |PlaceAt(ordered, index).placements| == |ordered|;
    }
  }

  lemma AfterRenumbering(ordered: seq<Slot>, index: nat, item: Id)
    requires Sound(ordered) && index <= |ordered| && MustRenumber(ordered, index)
    ensures InRange(After(ordered, index, item)) && StrictlyIncreasing(After(ordered, index, item))
  {
    var out := After(ordered, index, item);
    forall i | 0 <= i < |out|
      ensures out[i].position == (i + 1) * POSITION_GAP && 1 <= out[i].position <= POSITION_CEILING
    {
      AfterAt(ordered, index, item, i);
      RenumberedExactly(i);
    }
  }

  lemma MidpointSeparates(ordered: seq<Slot>, index: nat)
    requires Sound(ordered) && index <= |ordered| && !MustRenumber(ordered, index)
    ensures var p := PlaceAt(ordered, index).position;
            && (forall i :: 0 <= i < index ==> ordered[i].position < p)
            && (forall i :: index <= i < |ordered| ==> p < ordered[i].position)
  {
    MidpointBetween(ordered, index);
    forall i | 0 <= i < index - 1
      ensures ordered[i].position <= ordered[index - 1].position
    {
      assert Before(ordered[i], ordered[index - 1]);
    }
    forall i | index < i < |ordered|
      ensures ordered[index].position <= ordered[i].position
    {
      assert Before(ordered[index], ordered[i]);
    }
  }

  lemma AfterMidpoint(ordered: seq<Slot>, index: nat, item: Id)
    requires Sound(ordered) && index <= |ordered| && !MustRenumber(ordered, index)
    ensures InRange(After(ordered, index, item)) && Ordered(After(ordered, index, item))
    ensures StrictlyIncreasing(ordered) ==> StrictlyIncreasing(After(ordered, index, item))
  {
    var out := After(ordered, index, item);
    MidpointBetween(ordered, index);
    MidpointSeparates(ordered, index);
    forall i | 0 <= i < |out|
      ensures 1 <= out[i].position <= POSITION_CEILING
    {
      AfterAt(ordered, index, item, i);
    }
    forall i, j | 0 <= i < j < |out|
      ensures Before(out[i], out[j])
      ensures StrictlyIncreasing(ordered) ==> out[i].position < out[j].position
    {
      AfterAt(ordered, index, item, i);
      AfterAt(ordered, index, item, j);
    }
  }

  lemma AfterIds(ordered: seq<Slot>, index: nat, item: Id)
    requires index <= |ordered|
    ensures Ids(After(ordered, index, item)) == Ids(ordered)[..index] + [item] + Ids(ordered)[index..]
  {
    var out, ids := After(ordered, index, item), Ids(ordered);
    AfterAt(ordered, index, item, 0);
    forall i | 0 <= i <= |ordered|
      ensures out[i].id == (ids[..index] + [item] + ids[index..])[i]
    {
      AfterAt(ordered, index, item, i);
    }
  }

  /** What position.go promises: whether or not the scope was renumbered,
      sorting it by position gives the list with the task inserted at the named
      place, all other tasks in their old relative order, every position in
      range; and no two positions tie unless two already did. */
  lemma PlaceRefinesInsertion(ordered: seq<Slot>, index: nat, item: Id)
    requires Sound(ordered) && index <= |ordered|
    ensures Ids(After(ordered, index, item)) == Ids(ordered)[..index] + [item] + Ids(ordered)[index..]
    ensures Ordered(After(ordered, index, item))
    ensures InRange(After(ordered, index, item))
    ensures StrictlyIncreasing(ordered) || MustRenumber(ordered, index)
            ==> StrictlyIncreasing(After(ordered, index, item))
  {
    AfterIds(ordered, index, item);
    if MustRenumber(ordered, index) {
      AfterRenumbering(ordered, index, item);
    } else {
      AfterMidpoint(ordered, index, item);
    }
  }

  /** Creating a subtask throws the placements away (write.go:105). What it
      still gets is a position in range; it lies past every sibling exactly when
      nothing had to be renumbered, or the renumbered place lies past the last one. */
  lemma AppendWithoutPlacements(ordered: seq<Slot>)
    requires Sound(ordered)
    ensures 1 <= PlaceAt(ordered, |ordered|).position <= POSITION_CEILING
    ensures (forall i :: 0 <= i < |ordered| ==> ordered[i].position < PlaceAt(ordered, |ordered|).position) <==> TailRoom(ordered)
    ensures !TailRoom(ordered) ==> PlaceAt(ordered, |ordered|).position == (|ordered| + 1) * POSITION_GAP
  {
    var n := |ordered|;
    RenumberedExactly(n);
    if n > 0 {
      var last := ordered[n - 1];
      assert Upper(ordered, n) == last.position + 2 * POSITION_GAP;
      forall i | 0 <= i < n
        ensures ordered[i].position <= last.position
      {
        if i < n - 1 {
          assert Before(ordered[i], last);
        }
      }
      if !MustRenumber(ordered, n) {
        MidpointBetween(ordered, n);
      }
    }
  }

  /** Room at the end: an append fits under the ceiling, or renumbered it would still come last. */
  predicate TailRoom(ordered: seq<Slot>) {
    |ordered| == 0
    || ordered[|ordered| - 1].position + 2 * POSITION_GAP <= POSITION_CEILING
    || ordered[|ordered| - 1].position < (|ordered| + 1) * POSITION_GAP
  }

  /** The exact condition for a row with this id to be listed last, ties going by id. */
  predicate EndsUpLast(ordered: seq<Slot>, id: Id) {
    TailRoom(ordered) || Before(ordered[|ordered| - 1], Slot(id, (|ordered| + 1) * POSITION_GAP))
  }

  /** No sibling stands where the append would land: there is room at the end, or
      the last place of a renumbering is free. */
  predicate EndIsFree(ordered: seq<Slot>) {
    TailRoom(ordered) || forall i :: 0 <= i < |ordered| ==> ordered[i].position != (|ordered| + 1) * POSITION_GAP
  }

  lemma FreeEndExactly(ordered: seq<Slot>)
    requires Sound(ordered)
    ensures EndIsFree(ordered) <==> forall slot :: slot in ordered ==> slot.position != PlaceAt(ordered, |ordered|).position
  {
    AppendWithoutPlacements(ordered);
    forall i | 0 <= i < |ordered|
      ensures ordered[i] in ordered
    {
    }
  }

  /** Without its placements an append can tie: two siblings, one at the place
      the renumbering would free and one at the ceiling. With the first of them
      elsewhere there is still no room at the end, and no tie. */
  lemma AppendMayTie()
    ensures var tied, free := [Slot(2, 3072), Slot(3, POSITION_CEILING)], [Slot(2, 1024), Slot(3, POSITION_CEILING)];
            && Sound(tied) && StrictlyIncreasing(tied) && PlaceAt(tied, 2).position == tied[0].position
            && Sound(free) && !TailRoom(free) && EndIsFree(free)
  {
    assert MustRenumber([Slot(2, 3072), Slot(3, POSITION_CEILING)], 2);
  }
}
