/** front/src/features/filters/TagFilter.tsx: how many tag chips stay inline.
    The greedy line breaker is as good as any in-order layout. */
module TagRows {
  const GAP: real := 4.0

  // ---------- layouts ----------

  function Flatten(rows: seq<seq<real>>): seq<real> {
    if |rows| == 0 then [] else Flatten(rows[..|rows| - 1]) + rows[|rows| - 1]
  }

  /** A row with gaps between its chips. */
  function RowWidth(row: seq<real>): real {
    if |row| == 0 then 0.0
    else if |row| == 1 then row[0]
    else RowWidth(row[..|row| - 1]) + GAP + row[|row| - 1]
  }

  ghost predicate RowFits(row: seq<real>, available: real) {
    |row| > 0 && RowWidth(row) <= available
  }

  /** The chips, in their order, cut into rows that fit. */
  ghost predicate IsLayout(rows: seq<seq<real>>, widths: seq<real>, available: real) {
    Flatten(rows) == widths && forall i :: 0 <= i < |rows| ==> RowFits(rows[i], available)
  }

  ghost predicate Positive(widths: seq<real>) {
    forall i :: 0 <= i < |widths| ==> widths[i] > 0.0
  }

  /** The code never refuses the first row, whatever it is told. */
  function RowLimit(maxRows: int): nat {
    if maxRows < 1 then 1 else maxRows
  }

  /** Some layout stays within the rows. */
  ghost predicate CanFit(widths: seq<real>, available: real, maxRows: int) {
    exists rows :: IsLayout(rows, widths, available) && |rows| <= RowLimit(maxRows)
  }

  // ---------- the greedy breaker ----------

  /** The row being filled, and how much of it is taken. */
  datatype Pen = Pen(row: nat, x: real)

  function Place(pen: Pen, width: real, available: real): Pen {
    var need := if pen.x == 0.0 then width else GAP + width;
    if pen.x + need <= available then Pen(pen.row, pen.x + need) else Pen(pen.row + 1, width)
  }

  function Greedy(widths: seq<real>, available: real): Pen {
    if |widths| == 0 then Pen(1, 0.0)
    else Place(Greedy(widths[..|widths| - 1], available), widths[|widths| - 1], available)
  }

  ghost predicate NoneTooWide(widths: seq<real>, available: real) {
    forall i :: 0 <= i < |widths| ==> widths[i] <= available
  }

  ghost predicate GreedyFits(widths: seq<real>, available: real, maxRows: int) {
    NoneTooWide(widths, available) && Greedy(widths, available).row <= RowLimit(maxRows)
  }

  lemma {:induction false} GreedyMonotone(widths: seq<real>, available: real, i: nat)
    requires i <= |widths|
    ensures 1 <= Greedy(widths[..i], available).row <= Greedy(widths, available).row
    decreases |widths|
  {
    if i < |widths| {
      GreedyMonotone(widths[..|widths| - 1], available, i);
      assert widths[..|widths| - 1][..i] == widths[..i];
    } else {
      assert widths[..i] == widths;
      if |widths| > 0 {
        GreedyMonotone(widths[..|widths| - 1], available, |widths| - 1);
      }
    }
  }

  method FitsInRows(widths: seq<real>, available: real, maxRows: int) returns (fits: bool)
    ensures fits <==> GreedyFits(widths, available, maxRows)
  {
    var row, x := 1, 0.0;
    for i := 0 to |widths|
      invariant Pen(row, x) == Greedy(widths[..i], available) && row <= RowLimit(maxRows)
      invariant NoneTooWide(widths[..i], available)
    {
      assert widths[..i + 1][..i] == widths[..i];
      GreedyMonotone(widths, available, i + 1);
      var width := widths[i];
      if width > available {
        return false;
      }
      var need := if x == 0.0 then width else GAP + width;
      if x + need <= available {
        x := x + need;
      } else {
        row := row + 1;
        if row > maxRows {
          return false;
        }
        x := width;
      }
    }
    assert widths[..|widths|] == widths;
    return true;
  }

  /** Between two chips of one row there are four pixels. */
  lemma TwoInARow(first: real, second: real, available: real)
    requires first > 0.0 && second > 0.0
    ensures GreedyFits([first, second], available, 1) <==> first + 4.0 + second <= available
  {
    var both := [first, second];
    assert both[..1] == [first] && both[..1][..0] == [];
    assert Greedy([first], available) == Place(Greedy([], available), first, available);
    assert both[0] == first && both[1] == second;
  }

  // ---------- greedy is optimal ----------

  /** Nothing beats the greedy pen: fewer rows, or as many with the last one shorter. */
  ghost predicate AtLeast(rows: seq<seq<real>>, pen: Pen) {
    |rows| > pen.row || (|rows| == pen.row && |rows| > 0 && RowWidth(rows[|rows| - 1]) >= pen.x)
  }

  lemma {:induction false} RowIsWide(row: seq<real>)
    requires |row| > 0 && Positive(row)
    ensures RowWidth(row) >= row[|row| - 1]
  {
    if |row| > 1 {
      RowIsWide(row[..|row| - 1]);
    }
  }

  lemma LastRow(rows: seq<seq<real>>, widths: seq<real>, available: real)
    requires IsLayout(rows, widths, available) && |widths| > 0
    ensures |rows| > 0
    ensures var last := rows[|rows| - 1];
            last[|last| - 1] == widths[|widths| - 1] && |last| <= |widths| && last == widths[|widths| - |last|..]
  {
  }

  /** A layout with its last chip taken away. */
  ghost function Shorter(rows: seq<seq<real>>): seq<seq<real>>
    requires |rows| > 0
  {
    var front, last := rows[..|rows| - 1], rows[|rows| - 1];
    if |last| <= 1 then front else front + [last[..|last| - 1]]
  }

  lemma ShorterLayout(rows: seq<seq<real>>, widths: seq<real>, available: real)
    requires IsLayout(rows, widths, available) && Positive(widths) && |widths| > 0
    ensures |rows| > 0 && IsLayout(Shorter(rows), widths[..|widths| - 1], available)
  {
    LastRow(rows, widths, available);
    var front, last := rows[..|rows| - 1], rows[|rows| - 1];
    assert Flatten(rows) == Flatten(front) + last;
    if |last| > 1 {
      assert Shorter(rows)[..|rows| - 1] == front;
      assert RowFits(last, available);
      assert Flatten(Shorter(rows)) == Flatten(front) + last[..|last| - 1];
    }
  }

  lemma {:induction false} PenIsPositive(widths: seq<real>, available: real)
    requires Positive(widths)
    ensures Greedy(widths, available).x >= 0.0
    ensures |widths| > 0 ==> Greedy(widths, available).x > 0.0
    ensures |widths| == 0 ==> Greedy(widths, available) == Pen(1, 0.0)
  {
    if |widths| > 0 {
      PenIsPositive(widths[..|widths| - 1], available);
    }
  }

  lemma {:induction false} GreedyIsOptimal(rows: seq<seq<real>>, widths: seq<real>, available: real)
    requires IsLayout(rows, widths, available) && Positive(widths) && |widths| > 0
    ensures AtLeast(rows, Greedy(widths, available))
    decreases |widths|
  {
    var shorter, width := widths[..|widths| - 1], widths[|widths| - 1];
    LastRow(rows, widths, available);
    ShorterLayout(rows, widths, available);
    PenIsPositive(shorter, available);
    if |shorter| > 0 {
      GreedyIsOptimal(Shorter(rows), shorter, available);
    }
    OneMoreChip(rows, shorter, width, available);
  }

  lemma OneMoreChip(rows: seq<seq<real>>, shorter: seq<real>, width: real, available: real)
    requires |rows| > 0 && (forall i :: 0 <= i < |rows| ==> RowFits(rows[i], available)) && width > 0.0
    requires var last := rows[|rows| - 1]; |last| > 0 && last[|last| - 1] == width && Positive(last)
    requires var pen := Greedy(shorter, available);
             if |shorter| == 0 then pen == Pen(1, 0.0) && |rows[|rows| - 1]| == 1 else pen.x > 0.0 && |Shorter(rows)| > 0 && AtLeast(Shorter(rows), pen)
    ensures AtLeast(rows, Place(Greedy(shorter, available), width, available))
  {
    var last := rows[|rows| - 1];
    RowIsWide(last);
    if |last| > 1 {
      assert Shorter(rows)[|rows| - 1] == last[..|last| - 1];
    }
  }

  /** The rows the pen wrote. */
  ghost function Written(widths: seq<real>, available: real): (rows: seq<seq<real>>)
  {
    if |widths| == 0 then []
    else
      var shorter := widths[..|widths| - 1];
      Extended(Written(shorter, available), Greedy(shorter, available), widths[|widths| - 1], available)
  }

  /** They are a layout, and the pen stands where its last row ends. */
  ghost predicate WrittenRight(widths: seq<real>, rows: seq<seq<real>>, pen: Pen, available: real) {
    && IsLayout(rows, widths, available)
    && (if |widths| == 0 then rows == [] && pen == Pen(1, 0.0)
        else |rows| == pen.row && |rows| > 0 && RowWidth(rows[|rows| - 1]) == pen.x && pen.x > 0.0)
  }

  lemma {:induction false} WrittenIsLayout(widths: seq<real>, available: real)
    requires Positive(widths) && NoneTooWide(widths, available)
    ensures WrittenRight(widths, Written(widths, available), Greedy(widths, available), available)
  {
    if |widths| > 0 {
      var shorter, width := widths[..|widths| - 1], widths[|widths| - 1];
      WrittenIsLayout(shorter, available);
      ChipWritten(widths, shorter, width, available);
    }
  }

  lemma WiderLayout(front: seq<seq<real>>, shorter: seq<real>, width: real, available: real)
    requires IsLayout(front, shorter, available) && |front| > 0
    requires RowWidth(front[|front| - 1]) + GAP + width <= available
    ensures var last := front[|front| - 1];
            && IsLayout(front[..|front| - 1] + [last + [width]], shorter + [width], available)
            && RowWidth(last + [width]) == RowWidth(last) + GAP + width
  {
    var first, last := front[..|front| - 1], front[|front| - 1];
    assert RowFits(last, available);
    assert (last + [width])[..|last|] == last;
    var rows := first + [last + [width]];
    assert rows[..|rows| - 1] == first;
    assert Flatten(rows) == Flatten(first) + (last + [width]);
    assert Flatten(front) == Flatten(first) + last;
  }

  lemma LongerLayout(front: seq<seq<real>>, shorter: seq<real>, width: real, available: real)
    requires IsLayout(front, shorter, available) && width <= available
    ensures IsLayout(front + [[width]], shorter + [width], available) && RowWidth([width]) == width
  {
    var rows := front + [[width]];
    assert rows[..|rows| - 1] == front;
    assert RowFits([width], available);
  }

  lemma ChipWritten(widths: seq<real>, shorter: seq<real>, width: real, available: real)
    requires WrittenRight(shorter, Written(shorter, available), Greedy(shorter, available), available)
    requires widths == shorter + [width] && 0.0 < width <= available
    ensures WrittenRight(widths, Written(widths, available), Greedy(widths, available), available)
  {
    assert widths[..|widths| - 1] == shorter;
    ChipPlaced(shorter, Written(shorter, available), Greedy(shorter, available), width, available);
  }

  /** The rows with one more chip, put where the pen puts it. */
  function Extended(rows: seq<seq<real>>, pen: Pen, width: real, available: real): seq<seq<real>> {
    var need := if pen.x == 0.0 then width else GAP + width;
    if |rows| > 0 && pen.x + need <= available then rows[..|rows| - 1] + [rows[|rows| - 1] + [width]] else rows + [[width]]
  }

  lemma ChipPlaced(shorter: seq<real>, front: seq<seq<real>>, pen: Pen, width: real, available: real)
    requires WrittenRight(shorter, front, pen, available) && 0.0 < width <= available
    ensures WrittenRight(shorter + [width], Extended(front, pen, width, available), Place(pen, width, available), available)
  {
    if |front| > 0 && pen.x + GAP + width <= available {
      WiderLayout(front, shorter, width, available);
    } else {
      LongerLayout(front, shorter, width, available);
    }
  }

  /** fitsInRows answers true exactly when some in-order cut into rows fits. */
  lemma GreedyDecides(widths: seq<real>, available: real, maxRows: int)
    requires Positive(widths)
    ensures GreedyFits(widths, available, maxRows) <==> CanFit(widths, available, maxRows)
  {
    if GreedyFits(widths, available, maxRows) {
      WrittenIsLayout(widths, available);
      assert IsLayout(Written(widths, available), widths, available);
    }
    if CanFit(widths, available, maxRows) {
      var rows :| IsLayout(rows, widths, available) && |rows| <= RowLimit(maxRows);
      LayoutIsNarrow(rows, widths, available);
      if |widths| > 0 {
        GreedyIsOptimal(rows, widths, available);
      }
    }
  }

  lemma {:induction false} LayoutIsNarrow(rows: seq<seq<real>>, widths: seq<real>, available: real)
    requires IsLayout(rows, widths, available) && Positive(widths)
    ensures NoneTooWide(widths, available)
    decreases |widths|
  {
    if |widths| > 0 {
      LastRow(rows, widths, available);
      ShorterLayout(rows, widths, available);
      LayoutIsNarrow(Shorter(rows), widths[..|widths| - 1], available);
      RowIsWide(rows[|rows| - 1]);
      assert RowFits(rows[|rows| - 1], available);
    }
  }

  // ---------- how many stay visible ----------

  /** The first k chips and, unless that is all of them, the "+N" button. */
  function Shown(widths: seq<real>, plus: real, k: nat): seq<real>
    requires k <= |widths|
  {
    if k == |widths| then widths else widths[..k] + [plus]
  }

  ghost predicate Showable(widths: seq<real>, plus: real, available: real, maxRows: int, k: nat)
    requires k <= |widths|
  {
    CanFit(Shown(widths, plus, k), available, maxRows)
  }

  /** Lexicographic order on pens. */
  predicate NotPast(a: Pen, b: Pen) {
    a.row < b.row || (a.row == b.row && a.x <= b.x)
  }

  lemma PlaceKeepsOrder(a: Pen, b: Pen, width: real, available: real)
    requires NotPast(a, b) && a.x >= 0.0 && b.x >= 0.0 && width > 0.0 && width <= available
    ensures NotPast(Place(a, width, available), Place(b, width, available))
  {
  }

  lemma PlaceMovesOn(a: Pen, width: real, available: real)
    requires a.x >= 0.0 && width > 0.0
    ensures NotPast(a, Place(a, width, available))
  {
  }

  /** One chip fewer before the button still fits: feasible prefixes are downward closed. */
  lemma OneFewerFits(widths: seq<real>, plus: real, available: real, maxRows: int, k: nat)
    requires Positive(widths) && plus > 0.0 && k < |widths|
    requires GreedyFits(widths[..k + 1] + [plus], available, maxRows)
    ensures GreedyFits(widths[..k] + [plus], available, maxRows)
  {
    var front, longer := widths[..k], widths[..k + 1];
    assert longer[..k] == front;
    assert (longer + [plus])[..k + 1] == longer && (front + [plus])[..k] == front;
    assert (longer + [plus])[k + 1] == plus;
    forall i | 0 <= i < k + 1
      ensures (front + [plus])[i] <= available
    {
      assert (longer + [plus])[i] <= available;
    }
    PenIsPositive(front, available);
    PenIsPositive(longer, available);
    PlaceMovesOn(Greedy(front, available), widths[k], available);
    PlaceKeepsOrder(Greedy(front, available), Greedy(longer, available), plus, available);
  }

  lemma {:induction false} FewerFit(widths: seq<real>, plus: real, available: real, maxRows: int, j: nat, k: nat)
    requires Positive(widths) && plus > 0.0 && j <= k <= |widths|
    requires GreedyFits(widths[..k] + [plus], available, maxRows)
    ensures GreedyFits(widths[..j] + [plus], available, maxRows)
    decreases k
  {
    if j < k {
      OneFewerFits(widths, plus, available, maxRows, k - 1);
      FewerFit(widths, plus, available, maxRows, j, k - 1);
    }
  }

  lemma ShownIsPositive(widths: seq<real>, plus: real, k: nat)
    requires Positive(widths) && plus > 0.0 && k <= |widths|
    ensures Positive(Shown(widths, plus, k))
  {
  }

  /** Whatever can be shown with the button can be shown with fewer chips and the button. */
  lemma DownwardClosed(widths: seq<real>, plus: real, available: real, maxRows: int, j: nat, k: nat)
    requires Positive(widths) && plus > 0.0 && j <= k < |widths|
    requires Showable(widths, plus, available, maxRows, k)
    ensures Showable(widths, plus, available, maxRows, j)
  {
    ShownIsPositive(widths, plus, j);
    ShownIsPositive(widths, plus, k);
    GreedyDecides(widths[..k] + [plus], available, maxRows);
    GreedyDecides(widths[..j] + [plus], available, maxRows);
    FewerFit(widths, plus, available, maxRows, j, k);
  }

  /** The most chips any in-order layout could show, none if not even one fits
      beside the button; everything while the container has no width yet. */
  method VisibleCountFor(widths: seq<real>, plus: real, available: real, maxRows: int) returns (count: nat)
    requires Positive(widths) && plus > 0.0
    ensures available <= 0.0 ==> count == |widths|
    ensures available > 0.0 ==>
              && count <= |widths|
              && (count > 0 ==> Showable(widths, plus, available, maxRows, count))
              && (forall k :: count < k <= |widths| ==> !Showable(widths, plus, available, maxRows, k))
  {
    if available <= 0.0 {
      return |widths|;
    }
    GreedyDecides(widths, available, maxRows);
    var whole := FitsInRows(widths, available, maxRows);
    if whole {
      return |widths|;
    }
    var k := |widths| - 1;
    while k > 0
      invariant k <= |widths| - 1
      invariant forall j :: k < j <= |widths| && j > 0 ==> !Showable(widths, plus, available, maxRows, j)
      decreases k
    {
      ShownIsPositive(widths, plus, k);
      GreedyDecides(widths[..k] + [plus], available, maxRows);
      var fits := FitsInRows(widths[..k] + [plus], available, maxRows);
      if fits {
        return k;
      }
      k := k - 1;
    }
    return 0;
  }
}
