/**
 The row ranges of the chunks of a sheet, and the calculator's search for the one chunk that holds a row.
 */
module RowCoverage {
  import opened Wrappers
  import opened Sequences
  import opened Rendering
  import opened SheetUnits
  import opened Grouping
  import opened Spreadsheet

  /** Rows never go back along the units of a sheet. */
  ghost predicate NonDecreasing(units: seq<Unit>) {
    forall i, j :: 0 <= i < j < |units| ==> units[i].row <= units[j].row
  }

  predicate Covers(chunk: Chunk, row: nat) {
    chunk.rowStart <= row <= chunk.rowEnd
  }

  function Offset(groups: seq<seq<Unit>>, i: nat): nat
    requires i <= |groups|
  {
    if i == 0 then 0 else |groups[0]| + Offset(groups[1..], i - 1)
  }

  /** Where a group stands among the units. */
  lemma {:induction false} GroupSlice(groups: seq<seq<Unit>>, i: nat)
    requires i < |groups|
    ensures Offset(groups, i) + |groups[i]| <= |Flatten(groups)|
    ensures groups[i] == Flatten(groups)[Offset(groups, i)..Offset(groups, i) + |groups[i]|]
  {
    if i > 0 {
      GroupSlice(groups[1..], i - 1);
      var all, rest, a := Flatten(groups), Flatten(groups[1..]), Offset(groups[1..], i - 1);
      assert all == groups[0] + rest;
      SliceShift(groups[0], rest, a, a + |groups[i]|);
    }
  }

  lemma SliceShift(front: seq<Unit>, rest: seq<Unit>, a: nat, b: nat)
    requires a <= b <= |rest|
    ensures (front + rest)[|front| + a..|front| + b] == rest[a..b]
  {
  }

  /** A stretch of neighbours spans exactly the sheet's rows that it has a unit of. */
  lemma StretchSpans(units: seq<Unit>, a: nat, b: nat, row: nat)
    requires NonDecreasing(units) && a <= b < |units| && row in Rows(units)
    ensures units[a].row <= row <= units[b].row <==> exists k :: a <= k <= b && units[k].row == row
  {
    var k :| 0 <= k < |units| && units[k].row == row;
    if units[a].row <= row <= units[b].row {
      if k < a {
        assert units[a].row == row;
      } else if k > b {
        assert units[b].row == row;
      }
    }
  }

  /** A chunk's row range contains a row of the sheet exactly when the chunk holds a unit of it. */
  lemma {:induction false} RangeIsMembership(groups: seq<seq<Unit>>, units: seq<Unit>, i: nat, row: nat)
    requires Flatten(groups) == units && NonDecreasing(units)
    requires i < |groups| && groups[i] != [] && row in Rows(units)
    ensures Covers(ChunkOf(groups[i]), row) <==> row in Rows(groups[i])
  {
    hide Join, Flatten, Offset, NonDecreasing, Rows;
    GroupSlice(groups, i);
    var group, a := groups[i], Offset(groups, i);
    StretchSpans(units, a, a + |group| - 1, row);
    SliceRows(units, a, group, row);
    assert group[0] == units[a] && group[|group| - 1] == units[a + |group| - 1];
  }

  lemma SliceRows(units: seq<Unit>, a: nat, group: seq<Unit>, row: nat)
    requires a + |group| <= |units| && group == units[a..a + |group|]
    ensures row in Rows(group) <==> exists k :: a <= k <= a + |group| - 1 && units[k].row == row
  {
    if k :| a <= k <= a + |group| - 1 && units[k].row == row {
      assert group[k - a].row == row;
    }
    if row in Rows(group) {
      var j :| 0 <= j < |group| && group[j].row == row;
      assert units[a + j].row == row;
    }
  }

  /** Positions of the chunks whose range contains the row. */
  function Matches(chunks: seq<Chunk>, row: nat): (r: seq<nat>)
    ensures forall i :: i in r <==> 0 <= i < |chunks| && Covers(chunks[i], row)
    ensures forall j :: 0 <= j < |r| ==> r[j] < |chunks|
    ensures forall j, k :: 0 <= j < k < |r| ==> r[j] < r[k]
  {
    if chunks == [] then []
    else
      var front := Matches(chunks[..|chunks| - 1], row);
      if Covers(chunks[|chunks| - 1], row) then front + [|chunks| - 1] else front
  }

  /** All units of the row are in one chunk. */
  ghost predicate Undivided(groups: seq<seq<Unit>>, row: nat) {
    exists i :: 0 <= i < |groups| && row in Rows(groups[i]) && forall j :: 0 <= j < |groups| && row in Rows(groups[j]) ==> j == i
  }

  lemma {:induction false} OneMatch(chunks: seq<Chunk>, row: nat)
    ensures |Matches(chunks, row)| == 1 <==>
            exists i :: 0 <= i < |chunks| && Covers(chunks[i], row) &&
                        forall j :: 0 <= j < |chunks| && Covers(chunks[j], row) ==> j == i
  {
    hide Covers;
    var m := Matches(chunks, row);
    assert |m| >= 2 ==> m[0] < m[1];
    if |m| == 1 {
      assert m[0] in m;
      forall j | 0 <= j < |chunks| && Covers(chunks[j], row) ensures j == m[0] {
        assert j in m;
      }
    }
    if i :| 0 <= i < |chunks| && Covers(chunks[i], row) &&
            forall j :: 0 <= j < |chunks| && Covers(chunks[j], row) ==> j == i {
      assert i in m;
      forall k | 0 <= k < |m| ensures m[k] == i {
        assert m[k] in m;
      }
    }
  }

  /** For a row of the sheet, exactly one chunk matches precisely when the row was not divided between chunks. */
  lemma {:induction false} MatchExactly(groups: seq<seq<Unit>>, units: seq<Unit>, row: nat)
    requires Flatten(groups) == units && NonDecreasing(units) && row in Rows(units)
    requires forall i :: 0 <= i < |groups| ==> groups[i] != []
    ensures |Matches(ChunksOf(groups), row)| == 1 <==> Undivided(groups, row)
  {
    hide Covers, Rows, Flatten, NonDecreasing, ChunkOf;
    var chunks := ChunksOf(groups);
    forall i | 0 <= i < |groups| ensures Covers(chunks[i], row) <==> row in Rows(groups[i]) {
      RangeIsMembership(groups, units, i, row);
    }
    OneMatch(chunks, row);
  }

  // ---------------------------------------------------------------- the units of a sheet

  lemma {:induction false} LinesFollowRows(rows: seq<SheetRow>, maximum: nat)
    requires SheetLines(rows, maximum).Ok? && InOrder(rows)
    ensures forall i :: 0 <= i < |SheetLines(rows, maximum).value| ==>
              exists k :: 0 <= k < |rows| && rows[k].number == SheetLines(rows, maximum).value[i].row
    ensures forall i, j :: 0 <= i < j < |SheetLines(rows, maximum).value| ==>
              SheetLines(rows, maximum).value[i].row <= SheetLines(rows, maximum).value[j].row
  {
    hide RowUnits, Numbers;
    if rows != [] {
      var n := |rows| - 1;
      LinesFollowRows(rows[..n], maximum);
      var front := SheetLines(rows[..n], maximum).value;
      var lines := SheetLines(rows, maximum).value;
      forall i | 0 <= i < |lines| ensures exists k :: 0 <= k < |rows| && rows[k].number == lines[i].row
      {
        if i < |front| {
          var k :| 0 <= k < n && rows[..n][k].number == front[i].row;
          assert rows[k].number == lines[i].row;
        } else {
          assert rows[n].number == lines[i].row;
        }
      }
      forall i, j | 0 <= i < j < |lines| ensures lines[i].row <= lines[j].row {
        if i < |front| <= j {
          var k :| 0 <= k < n && rows[..n][k].number == front[i].row;
          assert rows[k].number <= rows[n].number;
        }
      }
    }
  }

  lemma {:induction false} RowHasEntries(row: nat, cells: seq<Cell>, maximum: nat)
    requires Packable(row, cells, maximum) && cells != []
    ensures RowEntries(row, cells, maximum) != []
  {
    CellCovered(row, cells[0], maximum);
  }

  /** Every row with a cell has a line. */
  lemma {:induction false} RowHasLine(rows: seq<SheetRow>, maximum: nat, k: nat)
    requires SheetLines(rows, maximum).Ok? && k < |rows| && rows[k].cells != []
    ensures exists i :: 0 <= i < |SheetLines(rows, maximum).value| && SheetLines(rows, maximum).value[i].row == rows[k].number
    decreases |rows|
  {
    hide RowUnits, Numbers, SortCells, RowEntries, Flatten, Packable;
    var n := |rows| - 1;
    var front := SheetLines(rows[..n], maximum).value;
    var lines := SheetLines(rows, maximum).value;
    if k < n {
      RowHasLine(rows[..n], maximum, k);
      var i :| 0 <= i < |front| && front[i].row == rows[..n][k].number;
      assert lines[i] == front[i];
    } else {
      RowHasGroup(rows[n], maximum);
      assert lines[|front|].row == rows[n].number;
    }
  }

  lemma RowHasGroup(row: SheetRow, maximum: nat)
    requires RowUnits(row, maximum).Ok? && row.cells != []
    ensures RowUnits(row, maximum).value != []
  {
    RowUnitsGood(row, maximum);
    var sorted := SortCells(row.cells);
    assert row.cells[0] in multiset(sorted);
    RowHasEntries(row.number, sorted, maximum);
  }

  lemma SortedHas(rows: seq<SheetRow>, row: SheetRow) returns (k: nat)
    requires row in rows
    ensures k < |SortRows(rows)| && SortRows(rows)[k] == row
  {
    assert row in multiset(rows);
    assert row in multiset(SortRows(rows));
    k :| 0 <= k < |SortRows(rows)| && SortRows(rows)[k] == row;
  }

  /**
   The calculator finds exactly one chunk for a row with cells precisely when chunking did not divide that row.
   */
  lemma {:induction false} CalculatorAgrees(rows: seq<SheetRow>, limits: Limits, before: Read, earlier: nat, row: SheetRow)
    requires SheetChunks(rows, limits, before, earlier).Ok? && row in rows && row.cells != []
    ensures SheetLines(SortRows(rows), limits.maxChars).Ok? && AllFilled(SheetLines(SortRows(rows), limits.maxChars).value)
    ensures var groups := Greedy(UnitsOf(SheetLines(SortRows(rows), limits.maxChars).value), limits);
            |Matches(SheetChunks(rows, limits, before, earlier).value, row.number)| == 1 <==> Undivided(groups, row.number)
  {
    hide SheetLines, BoundedLines, Render, Greedy, Feasible, Undivided, Matches, SortRows;
    var sorted := SortRows(rows);
    BoundedLinesGood(sorted, limits, before);
    SortRowsOrdered(rows);
    SheetLinesGood(sorted, limits.maxChars);
    var k := SortedHas(rows, row);
    var lines := SheetLines(sorted, limits.maxChars).value;
    var units := UnitsOf(lines);
    LinesFollowRows(sorted, limits.maxChars);
    RowHasLine(sorted, limits.maxChars, k);
    var i :| 0 <= i < |lines| && lines[i].row == row.number;
    assert units[i].row == row.number;
    GreedyProperties(units, limits);
    MatchExactly(Greedy(units, limits), units, row.number);
  }

  /** The search over the chunks of a sheet; anything but exactly one match is an error. */
  method FindChunk(chunks: seq<Chunk>, row: nat) returns (found: Option<nat>)
    ensures found.Some? <==> |Matches(chunks, row)| == 1
    ensures found.Some? ==> found.value < |chunks| && Covers(chunks[found.value], row)
  {
    var matches: seq<nat> := [];
    for i := 0 to |chunks|
      invariant matches == Matches(chunks[..i], row)
    {
      assert chunks[..i + 1][..i] == chunks[..i];
      if chunks[i].rowStart <= row <= chunks[i].rowEnd {
        matches := matches + [i];
      }
    }
    assert chunks[..|chunks|] == chunks;
    if |matches| != 1 {
      return None;
    }
    assert matches[0] in matches;
    return Some(matches[0]);
  }
}
