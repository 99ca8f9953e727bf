/** How many placements a scope takes before it has to be renumbered.

    Every placement halves one gap at worst, and a fresh gap is 2^10, so ten
    placements always separate two renumberings, and no more than ten are
    guaranteed. */
module Gaps {
  import opened Types
  import opened Position

  datatype Act = Put(index: nat, id: Id) | Drop(index: nat)

  ghost predicate Legal(slots: seq<Slot>, act: Act) {
    match act
    case Put(index, _) => index <= |slots|
    case Drop(index) => index < |slots|
  }

  /** One placement, or one task leaving the scope. An act that names no place does nothing. */
  ghost function Perform(slots: seq<Slot>, act: Act): seq<Slot> {
    if !Legal(slots, act) then slots
    else match act
      case Put(index, id) => After(slots, index, id)
      case Drop(index) => slots[..index] + slots[index + 1..]
  }

  ghost function Puts(acts: seq<Act>): nat {
    if |acts| == 0 then 0 else (if acts[0].Put? then 1 else 0) + Puts(acts[1..])
  }

  /** No placement of the run renumbers the scope. */
  ghost predicate Quiet(slots: seq<Slot>, acts: seq<Act>)
    decreases |acts|
  {
    |acts| == 0
    || ((acts[0].Put? && Legal(slots, acts[0]) ==> !MustRenumber(slots, acts[0].index))
        && Quiet(Perform(slots, acts[0]), acts[1..]))
  }

  ghost function Pow2(k: nat): (r: nat)
    ensures r >= 1
  {
    if k == 0 then 1 else 2 * Pow2(k - 1)
  }

  /** Every gap, the one from zero included, is at least `gap`. */
  ghost predicate Spread(slots: seq<Slot>, gap: int) {
    forall i {:trigger GapAt(slots, i, gap)} :: 0 <= i < |slots| ==> GapAt(slots, i, gap)
  }

  ghost predicate GapAt(slots: seq<Slot>, i: nat, gap: int)
    requires i < |slots|
  {
    slots[i].position - Lower(slots, i) >= gap
  }

  /** k appends from here stay under the ceiling. */
  ghost predicate Headroom(slots: seq<Slot>, k: nat) {
    Lower(slots, |slots|) + (k + 1) * POSITION_GAP <= POSITION_CEILING
  }

  lemma WiderGaps(slots: seq<Slot>, small: int, gap: int)
    requires small <= gap && Spread(slots, gap)
    ensures Spread(slots, small)
  {
    forall i | 0 <= i < |slots|
      ensures GapAt(slots, i, small)
    {
      assert GapAt(slots, i, gap);
    }
  }

  lemma {:induction false} SpreadKeepsUnderLast(slots: seq<Slot>, i: nat)
    requires Spread(slots, 1) && i <= |slots|
    ensures 0 <= Lower(slots, i) <= Lower(slots, |slots|)
    decreases |slots| - i
  {
    if i < |slots| {
      assert GapAt(slots, i, 1);
      SpreadKeepsUnderLast(slots, i + 1);
      LowerNonNegative(slots, i);
    } else {
      LowerNonNegative(slots, i);
    }
  }

  lemma {:induction false} LowerNonNegative(slots: seq<Slot>, i: nat)
    requires Spread(slots, 1) && i <= |slots|
    ensures 0 <= Lower(slots, i)
  {
    if i > 0 {
      assert GapAt(slots, i - 1, 1);
      LowerNonNegative(slots, i - 1);
    }
  }

  /** A gap of at least two takes the task at its middle. */
  lemma GapTakesMidpoint(slots: seq<Slot>, index: nat, k: nat)
    requires index <= |slots| && Spread(slots, 2) && Headroom(slots, k + 1)
    ensures !MustRenumber(slots, index)
    ensures var lower, upper := Lower(slots, index), Upper(slots, index);
            && (index == |slots| ==> upper == lower + 2 * POSITION_GAP)
            && PlaceAt(slots, index).position == lower + (upper - lower) / 2
  {
    WiderGaps(slots, 1, 2);
    SpreadKeepsUnderLast(slots, index);
    if index < |slots| {
      assert GapAt(slots, index, 2);
      SpreadKeepsUnderLast(slots, index + 1);
    }
    var lower, upper := Lower(slots, index), Upper(slots, index);
    assert upper - lower >= 2;
    assert Wrap32(upper - lower) == upper - lower;
  }

  /** Half of a gap remains on either side of the task put into it. */
  lemma PutHalvesAGap(slots: seq<Slot>, index: nat, id: Id, half: int, k: nat)
    requires 1 <= half && 2 * half <= POSITION_GAP && index <= |slots|
    requires Spread(slots, 2 * half) && Headroom(slots, k + 1)
    ensures !MustRenumber(slots, index)
    ensures Spread(After(slots, index, id), half)
    ensures Headroom(After(slots, index, id), k)
  {
    WiderGaps(slots, 2, 2 * half);
    GapTakesMidpoint(slots, index, k);
    assert index < |slots| ==> GapAt(slots, index, 2 * half);
    var out := After(slots, index, id);
    forall i | 0 <= i < |out|
      ensures GapAt(out, i, half)
    {
      AfterAt(slots, index, id, i);
      if i > 0 {
        AfterAt(slots, index, id, i - 1);
      }
      assert i < |slots| ==> GapAt(slots, i, 2 * half);
      assert i > index ==> GapAt(slots, i - 1, 2 * half);
    }
    AfterAt(slots, index, id, |slots|);
  }

  lemma DropKeepsGaps(slots: seq<Slot>, index: nat, gap: int, k: nat)
    requires index < |slots| && gap >= 1 && Spread(slots, gap) && Headroom(slots, k)
    ensures Spread(Perform(slots, Drop(index)), gap)
    ensures Headroom(Perform(slots, Drop(index)), k)
  {
    var out := Perform(slots, Drop(index));
    forall i | 0 <= i < |out|
      ensures GapAt(out, i, gap)
    {
      if i >= index {
        assert out[i] == slots[i + 1];
        assert GapAt(slots, i, gap) && GapAt(slots, i + 1, gap);
      } else {
        assert GapAt(slots, i, gap);
      }
    }
    WiderGaps(slots, 1, gap);
    SpreadKeepsUnderLast(slots, |slots| - 1);
  }

  /** If every gap is at least 2^k and k appends fit under the ceiling, then any
      k placements anywhere, mixed with any removals, renumber nothing. */
  lemma {:induction false} PlacementsWithoutRenumbering(slots: seq<Slot>, acts: seq<Act>, k: nat)
    requires k <= 10 && Puts(acts) <= k
    requires Spread(slots, Pow2(k)) && Headroom(slots, k)
    ensures Quiet(slots, acts)
    decreases |acts|
  {
    if |acts| > 0 {
      if !Legal(slots, acts[0]) {
        PlacementsWithoutRenumbering(slots, acts[1..], k);
      } else if acts[0].Drop? {
        DropKeepsGaps(slots, acts[0].index, Pow2(k), k);
        PlacementsWithoutRenumbering(Perform(slots, acts[0]), acts[1..], k);
      } else {
        Pow2Bound(k);
        PutHalvesAGap(slots, acts[0].index, acts[0].id, Pow2(k - 1), k - 1);
        PlacementsWithoutRenumbering(Perform(slots, acts[0]), acts[1..], k - 1);
      }
    }
  }

  lemma {:induction false} Pow2Bound(k: nat)
    requires k <= 10
    ensures Pow2(k) <= POSITION_GAP
    ensures k == 10 ==> Pow2(k) == POSITION_GAP
  {
    assert Pow2(10) == 2 * Pow2(9) == 4 * Pow2(8) == 8 * Pow2(7) == 16 * Pow2(6);
    assert Pow2(6) == 2 * Pow2(5) == 4 * Pow2(4) == 8 * Pow2(3) == 16 * Pow2(2);
    if k < 10 {
      Pow2Grows(k, 10);
    }
  }

  lemma {:induction false} Pow2Grows(i: nat, j: nat)
    requires i <= j
    ensures Pow2(i) <= Pow2(j)
  {
    if i < j {
      Pow2Grows(i, j - 1);
    }
  }

  /** At least ten placements separate two renumberings of a scope. */
  lemma TenPlacementsAfterRenumbering(slots: seq<Slot>, index: nat, id: Id, acts: seq<Act>)
    requires Sound(slots) && index <= |slots| && MustRenumber(slots, index)
    requires |slots| + 12 <= SCOPE_LIMIT
    requires Puts(acts) <= 10
    ensures Quiet(After(slots, index, id), acts)
  {
    var out := After(slots, index, id);
    forall i | 0 <= i < |out|
      ensures out[i].position == (i + 1) * POSITION_GAP
    {
      AfterAt(slots, index, id, i);
      RenumberedExactly(i);
    }
    Pow2Bound(10);
    PlacementsWithoutRenumbering(out, acts, 10);
  }

  /** ... and ten is all there is: putting k tasks in front of a first task at
      2^k uses the gap up, and the next one renumbers. */
  lemma {:induction false} FrontGapIsUsedUp(slots: seq<Slot>, k: nat, id: Id)
    requires k <= 10 && |slots| > 0 && slots[0].position == Pow2(k)
    ensures var acts := seq(k + 1, i => Put(0, id)); !Quiet(slots, acts)
    decreases k
  {
    var acts: seq<Act> := seq(k + 1, i => Put(0, id));
    Pow2Bound(k);
    if k > 0 {
      assert acts[1..] == seq(k, i => Put(0, id));
      AfterAt(slots, 0, id, 0);
      assert Pow2(k) / 2 == Pow2(k - 1);
      FrontGapIsUsedUp(Perform(slots, acts[0]), k - 1, id);
    }
  }
}
