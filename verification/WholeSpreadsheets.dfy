/**
 Exactly which spreadsheets are chunked, and what the chunks of a whole spreadsheet say.
 */
module WholeSpreadsheets {
  import opened Wrappers
  import opened Sequences
  import opened Rendering
  import opened SheetUnits
  import opened Grouping
  import opened Spreadsheet
  import opened Chunking
  import RowCoverage
  import T = Text

  // ---------------------------------------------------------------- rows

  function ColumnOf(cell: Cell): nat {
    cell.column
  }

  function NumberOf(row: SheetRow): nat {
    row.number
  }

  function CellsOf(row: SheetRow): nat {
    |row.cells|
  }

  function IdentityOf(sheet: Sheet): (nat, string) {
    (sheet.index, sheet.name)
  }

  /** A line has room for the row number, the coordinates and one character of the value. */
  predicate HasRoom(row: nat, cells: seq<Cell>, maximum: nat) {
    forall i :: 0 <= i < |cells| ==> 7 + |Decimal(row)| + |cells[i].coordinate| <= maximum
  }

  /** No column twice, and room for every cell or for a fragment of it. */
  ghost predicate RowFine(row: SheetRow, maximum: nat) {
    DistinctBy(row.cells, ColumnOf) && HasRoom(row.number, row.cells, maximum)
  }

  lemma RoomExactly(row: nat, cells: seq<Cell>, maximum: nat)
    ensures Packable(row, cells, maximum) <==> HasRoom(row, cells, maximum)
  {
    forall i | 0 <= i < |cells|
      ensures Fits(row, cells[i], maximum) || Available(row, cells[i], maximum) >= 1 <==> 7 + |Decimal(row)| + |cells[i].coordinate| <= maximum
    {
    }
  }

  lemma {:induction false} StrictlyMeans(cells: seq<Cell>)
    requires Ascending(cells)
    ensures StrictlyAscending(cells) <==> DistinctBy(cells, ColumnOf)
  {
    if DistinctBy(cells, ColumnOf) {
      forall i, j | 0 <= i < j < |cells| ensures cells[i].column < cells[j].column {
        assert ColumnOf(cells[i]) != ColumnOf(cells[j]);
      }
    }
  }

  lemma {:induction false} PackablePermutation(row: nat, a: seq<Cell>, b: seq<Cell>, maximum: nat)
    requires multiset(a) == multiset(b) && Packable(row, a, maximum)
    ensures Packable(row, b, maximum)
  {
    hide Fits, Available;
    forall i | 0 <= i < |b| ensures Fits(row, b[i], maximum) || Available(row, b[i], maximum) >= 1 {
      var k := FindIn(b[i], b, a);
    }
  }

  /** A row is cut into units if and only if it is fine; what is wrong with it otherwise is as the error says. */
  lemma {:induction false} RowUnitsExactly(row: SheetRow, maximum: nat)
    ensures RowUnits(row, maximum).Ok? <==> RowFine(row, maximum)
    ensures RowUnits(row, maximum).Err? ==>
              RowUnits(row, maximum).error ==
                if DistinctBy(row.cells, ColumnOf) then ResultLimitExceeded else InvalidSource
  {
    hide Packable, Fits, Available, SortCells, StrictlyAscending, DistinctBy, Ascending, ColumnOf;
    var sorted := SortCells(row.cells);
    SortAscending(row.cells);
    StrictlyMeans(sorted);
    PackProperties(row.number, sorted, maximum, []);
    if DistinctBy(sorted, ColumnOf) {
      DistinctPermutation(sorted, row.cells, ColumnOf);
    }
    if DistinctBy(row.cells, ColumnOf) {
      DistinctPermutation(row.cells, sorted, ColumnOf);
    }
    if Packable(row.number, sorted, maximum) {
      PackablePermutation(row.number, sorted, row.cells, maximum);
    }
    if Packable(row.number, row.cells, maximum) {
      PackablePermutation(row.number, row.cells, sorted, maximum);
    }
    hide HasRoom;
    RoomExactly(row.number, row.cells, maximum);
  }

  // ---------------------------------------------------------------- sheets

  ghost predicate RowsFine(rows: seq<SheetRow>, maximum: nat) {
    DistinctBy(rows, NumberOf) && forall i :: 0 <= i < |rows| ==> RowFine(rows[i], maximum)
  }

  /** A row number or a column of a row is there twice. */
  ghost predicate RowsAmbiguous(rows: seq<SheetRow>) {
    !DistinctBy(rows, NumberOf) || exists i :: 0 <= i < |rows| && !DistinctBy(rows[i].cells, ColumnOf)
  }

  /** A cell leaves no room for even a fragment of it. */
  ghost predicate RowsCramped(rows: seq<SheetRow>, maximum: nat) {
    exists i :: 0 <= i < |rows| && !HasRoom(rows[i].number, rows[i].cells, maximum)
  }

  lemma {:induction false} DistinctSnoc(rows: seq<SheetRow>)
    requires rows != []
    ensures var front, last := rows[..|rows| - 1], rows[|rows| - 1];
            DistinctBy(rows, NumberOf) <==> DistinctBy(front, NumberOf) && last.number !in Numbers(front)
  {
    var n := |rows| - 1;
    var front, last := rows[..n], rows[n];
    if DistinctBy(rows, NumberOf) {
      forall i, j | 0 <= i < j < n ensures NumberOf(front[i]) != NumberOf(front[j]) {
        assert NumberOf(rows[i]) != NumberOf(rows[j]);
      }
      forall i | 0 <= i < n ensures front[i].number != last.number {
        assert NumberOf(rows[i]) != NumberOf(rows[n]);
      }
    }
    if DistinctBy(front, NumberOf) && last.number !in Numbers(front) {
      forall i, j | 0 <= i < j < |rows| ensures NumberOf(rows[i]) != NumberOf(rows[j]) {
        assert front[i].number in Numbers(front);
        if j < n {
          assert NumberOf(front[i]) != NumberOf(front[j]);
        }
      }
    }
  }

  lemma RowsSnoc(rows: seq<SheetRow>, maximum: nat)
    requires rows != []
    ensures var front, last := rows[..|rows| - 1], rows[|rows| - 1];
            && (RowsFine(rows, maximum) <==> RowsFine(front, maximum) && last.number !in Numbers(front) && RowFine(last, maximum))
            && (RowsAmbiguous(rows) <==> RowsAmbiguous(front) || last.number in Numbers(front) || !DistinctBy(last.cells, ColumnOf))
            && (RowsCramped(rows, maximum) <==> RowsCramped(front, maximum) || !HasRoom(last.number, last.cells, maximum))
  {
    hide DistinctBy, Numbers, HasRoom, RowFine;
    var n := |rows| - 1;
    DistinctSnoc(rows);
    var front := rows[..n];
    assert forall i :: 0 <= i < n ==> front[i] == rows[i];
    if RowsAmbiguous(front) && DistinctBy(front, NumberOf) {
      var i :| 0 <= i < n && !DistinctBy(front[i].cells, ColumnOf);
      assert !DistinctBy(rows[i].cells, ColumnOf);
    }
    if RowsCramped(front, maximum) {
      var i :| 0 <= i < n && !HasRoom(front[i].number, front[i].cells, maximum);
      assert !HasRoom(rows[i].number, rows[i].cells, maximum);
    }
    if !DistinctBy(rows[n].cells, ColumnOf) {
      assert RowsAmbiguous(rows);
    }
    if !HasRoom(rows[n].number, rows[n].cells, maximum) {
      assert RowsCramped(rows, maximum);
    }
    if RowsFine(front, maximum) && RowFine(rows[n], maximum) {
      assert forall i :: 0 <= i < |rows| ==> RowFine(rows[i], maximum);
    }
    if RowsFine(rows, maximum) {
      assert forall i :: 0 <= i < n ==> RowFine(front[i], maximum);
      assert RowFine(rows[n], maximum);
    }
  }

  /** Rows in order give lines if and only if they are fine and within the limits; an error tells what is wrong. */
  lemma {:induction false} BoundedLinesOk(rows: seq<SheetRow>, limits: Limits, before: Read)
    ensures var lines := BoundedLines(rows, limits, before);
            && (lines.Ok? <==> RowsFine(rows, limits.maxChars) && (rows == [] || Spreadsheet.Within(ReadOn(before, rows), limits)))
            && (lines == Err(InvalidSource) ==> RowsAmbiguous(rows))
            && (lines == Err(SourceLimitExceeded) ==> !Spreadsheet.Within(ReadOn(before, rows), limits))
            && (lines == Err(ResultLimitExceeded) ==> RowsCramped(rows, limits.maxChars))
  {
    hide RowUnits, Numbers, RowsFine, RowsAmbiguous, RowsCramped, DistinctBy, HasRoom;
    if rows == [] {
      NoRowsFine(limits.maxChars);
    } else {
      var last := rows[|rows| - 1];
      BoundedLinesOk(rows[..|rows| - 1], limits, before);
      RowsSnoc(rows, limits.maxChars);
      RowUnitsExactly(last, limits.maxChars);
    }
  }

  lemma NoRowsFine(maximum: nat)
    ensures RowsFine([], maximum)
  {
  }

  // ---------------------------------------------------------------- documents

  function RowsIn(sheet: Sheet): nat {
    |sheet.rows|
  }

  function CellsIn(sheet: Sheet): nat {
    Total(sheet.rows, CellsOf)
  }

  /** The units that the rows of a sheet are cut into, or none if they cannot be. */
  function UnitsIn(sheet: Sheet, maximum: nat): seq<Unit> {
    var lines := SheetLines(SortRows(sheet.rows), maximum);
    if lines.Ok? && AllFilled(lines.value) then UnitsOf(lines.value) else []
  }

  /** How many chunks a sheet is worth: the number of its greedy groups. */
  function ChunksIn(limits: Limits): Sheet -> nat {
    (sheet: Sheet) => |Greedy(UnitsIn(sheet, limits.maxChars), limits)|
  }

  /** The groups put end to end are the units; each fits a chunk, its lines in length and its rows in number. */
  ghost predicate Divides(groups: seq<seq<Unit>>, units: seq<Unit>, limits: Limits) {
    && Flatten(groups) == units
    && forall i :: 0 <= i < |groups| ==>
         && groups[i] != []
         && |Join(Contents(groups[i]), '\n')| <= limits.maxChars
         && |(set u | u in groups[i] :: u.row)| <= limits.rowsPerChunk
  }

  lemma DividesExactly(groups: seq<seq<Unit>>, units: seq<Unit>, limits: Limits)
    ensures Divides(groups, units, limits) <==> Division(groups, units, limits)
  {
    hide Flatten, Join;
    forall i | 0 <= i < |groups| ensures (set u | u in groups[i] :: u.row) == Rows(groups[i]) {
      forall r | r in Rows(groups[i]) ensures r in (set u | u in groups[i] :: u.row) {
        var k :| 0 <= k < |groups[i]| && groups[i][k].row == r;
        assert groups[i][k] in groups[i];
      }
    }
  }

  /** That is the least number of chunks that any division of the sheet's units within the limits has. */
  lemma {:induction false} ChunksAreFewest(sheet: Sheet, limits: Limits)
    ensures exists groups :: Divides(groups, UnitsIn(sheet, limits.maxChars), limits) && |groups| == ChunksIn(limits)(sheet)
    ensures forall groups :: Divides(groups, UnitsIn(sheet, limits.maxChars), limits) ==> ChunksIn(limits)(sheet) <= |groups|
  {
    hide SheetLines, SortRows, Greedy, Division, Divides, Render;
    var units := UnitsIn(sheet, limits.maxChars);
    SheetLinesGood(SortRows(sheet.rows), limits.maxChars);
    assert Divides(Greedy(units, limits), units, limits) by {
      GreedyProperties(units, limits);
      DividesExactly(Greedy(units, limits), units, limits);
    }
    forall groups | Divides(groups, units, limits) ensures |Greedy(units, limits)| <= |groups| {
      DividesExactly(groups, units, limits);
      GreedyOptimal(units, limits, groups);
    }
  }

  lemma {:induction false} CellsAreTotal(rows: seq<SheetRow>)
    ensures Cells(rows) == Total(rows, CellsOf)
  {
    if rows != [] {
      CellsAreTotal(rows[..|rows| - 1]);
    }
  }

  lemma {:induction false} ReadsInAnyOrder(rows: seq<SheetRow>, before: Read)
    ensures ReadOn(before, SortRows(rows)) == Read(before.rows + |rows|, before.cells + Total(rows, CellsOf))
  {
    var sorted := SortRows(rows);
    CellsAreTotal(sorted);
    TotalPermutation(sorted, rows, CellsOf);
    SameLength(sorted, rows);
  }

  lemma {:induction false} FineInAnyOrder(rows: seq<SheetRow>, sorted: seq<SheetRow>, maximum: nat)
    requires multiset(sorted) == multiset(rows)
    ensures RowsFine(sorted, maximum) ==> RowsFine(rows, maximum)
    ensures RowsAmbiguous(sorted) ==> RowsAmbiguous(rows)
    ensures RowsCramped(sorted, maximum) ==> RowsCramped(rows, maximum)
  {
    hide DistinctBy, HasRoom, RowFine;
    if DistinctBy(sorted, NumberOf) {
      DistinctPermutation(sorted, rows, NumberOf);
    }
    if DistinctBy(rows, NumberOf) {
      DistinctPermutation(rows, sorted, NumberOf);
    }
    if RowsFine(sorted, maximum) {
      forall i | 0 <= i < |rows| ensures RowFine(rows[i], maximum) {
        var k := FindIn(rows[i], rows, sorted);
      }
    }
    if i :| 0 <= i < |sorted| && !DistinctBy(sorted[i].cells, ColumnOf) {
      var k := FindIn(sorted[i], sorted, rows);
    }
    if i :| 0 <= i < |sorted| && !HasRoom(sorted[i].number, sorted[i].cells, maximum) {
      var k := FindIn(sorted[i], sorted, rows);
    }
  }

  /** One sheet, when `before` was read and `earlier` chunks were made of the sheets before it. */
  lemma {:induction false} SheetChunksOk(sheet: Sheet, limits: Limits, before: Read, earlier: nat)
    requires Spreadsheet.Within(before, limits) && earlier <= limits.maxChunks
    ensures var chunks, count := SheetChunks(sheet.rows, limits, before, earlier), ChunksIn(limits)(sheet);
            var read := Read(before.rows + RowsIn(sheet), before.cells + CellsIn(sheet));
            && ReadOn(before, SortRows(sheet.rows)) == read
            && (chunks.Ok? <==> RowsFine(sheet.rows, limits.maxChars) && Spreadsheet.Within(read, limits) && earlier + count <= limits.maxChunks)
            && (chunks.Ok? ==> |chunks.value| == count)
            && (chunks == Err(InvalidSource) ==> RowsAmbiguous(sheet.rows))
            && (chunks == Err(SourceLimitExceeded) ==> !Spreadsheet.Within(read, limits))
            && (chunks == Err(ResultLimitExceeded) ==> RowsCramped(sheet.rows, limits.maxChars) || earlier + count > limits.maxChunks)
  {
    hide SortRows, BoundedLines, SheetLines, Greedy, RowsFine, RowsAmbiguous, RowsCramped, Cells, Total, UnitOf;
    var sorted := SortRows(sheet.rows);
    ReadsInAnyOrder(sheet.rows, before);
    FineInAnyOrder(sheet.rows, sorted, limits.maxChars);
    FineInAnyOrder(sorted, sheet.rows, limits.maxChars);
    BoundedLinesOk(sorted, limits, before);
    SameLength(sorted, sheet.rows);
    if sorted == [] {
      assert ReadOn(before, sorted) == before by { ReadNothing(before); }
    }
    if BoundedLines(sorted, limits, before).Ok? {
      BoundedLinesGood(sorted, limits, before);
    }
  }

  lemma ReadNothing(before: Read)
    ensures ReadOn(before, []) == before
  {
  }

  /** All limits that span the sheets of a document are kept. */
  ghost predicate WithinLimits(sheets: seq<Sheet>, limits: Limits) {
    && Total(sheets, RowsIn) <= limits.maxRows && Total(sheets, CellsIn) <= limits.maxCells
    && Total(sheets, ChunksIn(limits)) <= limits.maxChunks
  }

  ghost predicate SheetsFine(sheets: seq<Sheet>, maximum: nat) {
    DistinctBy(sheets, IdentityOf) && forall i :: 0 <= i < |sheets| ==> RowsFine(sheets[i].rows, maximum)
  }

  /** A sheet identity is there twice, or a row or column of a sheet is. */
  ghost predicate SheetsAmbiguous(sheets: seq<Sheet>) {
    !DistinctBy(sheets, IdentityOf) || exists i :: 0 <= i < |sheets| && RowsAmbiguous(sheets[i].rows)
  }

  ghost predicate SheetsCramped(sheets: seq<Sheet>, maximum: nat) {
    exists i :: 0 <= i < |sheets| && RowsCramped(sheets[i].rows, maximum)
  }

  lemma {:induction false} IdentitySnoc(sheets: seq<Sheet>)
    requires sheets != []
    ensures var front, last := sheets[..|sheets| - 1], sheets[|sheets| - 1];
            DistinctBy(sheets, IdentityOf) <==> DistinctBy(front, IdentityOf) && (last.index, last.name) !in Identities(front)
  {
    var n := |sheets| - 1;
    var front, last := sheets[..n], sheets[n];
    if DistinctBy(sheets, IdentityOf) {
      forall i, j | 0 <= i < j < n ensures IdentityOf(front[i]) != IdentityOf(front[j]) {
        assert IdentityOf(sheets[i]) != IdentityOf(sheets[j]);
      }
      forall i | 0 <= i < n ensures (front[i].index, front[i].name) != (last.index, last.name) {
        assert IdentityOf(sheets[i]) != IdentityOf(sheets[n]);
      }
    }
    if DistinctBy(front, IdentityOf) && (last.index, last.name) !in Identities(front) {
      forall i, j | 0 <= i < j < |sheets| ensures IdentityOf(sheets[i]) != IdentityOf(sheets[j]) {
        assert (front[i].index, front[i].name) in Identities(front);
        if j < n {
          assert IdentityOf(front[i]) != IdentityOf(front[j]);
        }
      }
    }
  }

  lemma SheetsSnoc(sheets: seq<Sheet>, maximum: nat)
    requires sheets != []
    ensures var front, last := sheets[..|sheets| - 1], sheets[|sheets| - 1];
            var unseen := (last.index, last.name) !in Identities(front);
            && (SheetsFine(sheets, maximum) <==> SheetsFine(front, maximum) && unseen && RowsFine(last.rows, maximum))
            && (SheetsAmbiguous(sheets) <==> SheetsAmbiguous(front) || !unseen || RowsAmbiguous(last.rows))
            && (SheetsCramped(sheets, maximum) <==> SheetsCramped(front, maximum) || RowsCramped(last.rows, maximum))
  {
    hide DistinctBy, Identities, RowsFine, RowsAmbiguous, RowsCramped;
    var n := |sheets| - 1;
    var front := sheets[..n];
    IdentitySnoc(sheets);
    assert forall i :: 0 <= i < n ==> front[i] == sheets[i];
    if SheetsAmbiguous(front) && DistinctBy(front, IdentityOf) {
      var i :| 0 <= i < n && RowsAmbiguous(front[i].rows);
      assert RowsAmbiguous(sheets[i].rows);
    }
    if SheetsCramped(front, maximum) {
      var i :| 0 <= i < n && RowsCramped(front[i].rows, maximum);
      assert RowsCramped(sheets[i].rows, maximum);
    }
    if RowsAmbiguous(sheets[n].rows) {
      assert SheetsAmbiguous(sheets);
    }
    if RowsCramped(sheets[n].rows, maximum) {
      assert SheetsCramped(sheets, maximum);
    }
    if SheetsFine(sheets, maximum) {
      assert forall i :: 0 <= i < n ==> RowsFine(front[i].rows, maximum);
      assert RowsFine(sheets[n].rows, maximum);
    }
  }

  /** Sheets in order are chunked if and only if they are fine and within the limits; an error tells what is wrong. */
  lemma {:induction false} SheetsChunksOk(sheets: seq<Sheet>, limits: Limits)
    ensures var made := SheetsChunks(sheets, limits);
            && (made.Ok? <==> SheetsFine(sheets, limits.maxChars) && WithinLimits(sheets, limits))
            && (made.Ok? ==>
                  && made.value.read == Read(Total(sheets, RowsIn), Total(sheets, CellsIn))
                  && |made.value.chunks| == Total(sheets, ChunksIn(limits)))
            && (made == Err(InvalidSource) ==> SheetsAmbiguous(sheets))
            && (made == Err(SourceLimitExceeded) ==> Total(sheets, RowsIn) > limits.maxRows || Total(sheets, CellsIn) > limits.maxCells)
            && (made == Err(ResultLimitExceeded) ==> SheetsCramped(sheets, limits.maxChars) || Total(sheets, ChunksIn(limits)) > limits.maxChunks)
  {
    hide SheetChunks, Identities, SortRows, ReadOn, DistinctBy, RowsFine, RowsAmbiguous, RowsCramped, SheetsFine, SheetsAmbiguous,
         SheetsCramped, ChunksIn, RowsIn, CellsIn;
    if sheets == [] {
      NoSheetsFine(limits.maxChars);
    } else {
      var front, last := sheets[..|sheets| - 1], sheets[|sheets| - 1];
      SheetsChunksOk(front, limits);
      SheetsSnoc(sheets, limits.maxChars);
      if SheetsChunks(front, limits).Ok? {
        var made := SheetsChunks(front, limits).value;
        SheetChunksOk(last, limits, made.read, |made.chunks|);
      }
    }
  }

  lemma NoSheetsFine(maximum: nat)
    ensures SheetsFine([], maximum)
  {
  }

  // ---------------------------------------------------------------- the order of sheets

  lemma {:induction false} NameLeqTransitive(a: string, b: string, c: string)
    requires NameLeq(a, b) && NameLeq(b, c)
    ensures NameLeq(a, c)
  {
    if a != "" && a[0] == b[0] && b[0] == c[0] {
      NameLeqTransitive(a[1..], b[1..], c[1..]);
    }
  }

  lemma {:induction false} NameLeqAntisymmetric(a: string, b: string)
    requires NameLeq(a, b) && NameLeq(b, a)
    ensures a == b
  {
    if a != "" {
      NameLeqAntisymmetric(a[1..], b[1..]);
      assert a == [a[0]] + a[1..] && b == [b[0]] + b[1..];
    }
  }

  lemma {:induction false} OrderReaches(sheets: seq<Sheet>, i: nat, j: nat)
    requires SheetsInOrder(sheets) && i < j < |sheets|
    ensures SheetLeq(sheets[i], sheets[j])
    decreases j - i
  {
    hide NameLeq;
    if i + 1 < j {
      OrderReaches(sheets, i, j - 1);
      if sheets[i].index == sheets[j - 1].index == sheets[j].index {
        NameLeqTransitive(sheets[i].name, sheets[j - 1].name, sheets[j].name);
      }
    }
  }

  /** Sheets with distinct identities can be put in order in one way only. */
  lemma {:induction false} OneOrder(a: seq<Sheet>, b: seq<Sheet>)
    requires multiset(a) == multiset(b) && SheetsInOrder(a) && SheetsInOrder(b) && DistinctBy(a, IdentityOf)
    ensures a == b
  {
    hide NameLeq, SheetsInOrder;
    forall i, j | 0 <= i < j < |a| ensures SheetLeq(a[i], a[j]) {
      OrderReaches(a, i, j);
    }
    forall i, j | 0 <= i < j < |b| ensures SheetLeq(b[i], b[j]) {
      OrderReaches(b, i, j);
    }
    forall x, y | x in a && y in a && SheetLeq(x, y) && SheetLeq(y, x) ensures x == y {
      NameLeqAntisymmetric(x.name, y.name);
      assert IdentityOf(x) == IdentityOf(y);
    }
    SameOrder(a, b, SheetLeq);
  }

  // ---------------------------------------------------------------- whole spreadsheets

  /** Exactly the documents that are chunked. */
  ghost predicate Chunkable(sheets: seq<Sheet>, pages: nat, limits: Limits) {
    pages == 0 && |sheets| <= limits.maxSheets && SheetsFine(sheets, limits.maxChars) && WithinLimits(sheets, limits)
  }

  lemma {:induction false} SheetsInAnyOrder(a: seq<Sheet>, b: seq<Sheet>, limits: Limits)
    requires multiset(a) == multiset(b)
    ensures SheetsFine(a, limits.maxChars) ==> SheetsFine(b, limits.maxChars)
    ensures SheetsAmbiguous(a) ==> SheetsAmbiguous(b)
    ensures SheetsCramped(a, limits.maxChars) ==> SheetsCramped(b, limits.maxChars)
    ensures Total(a, RowsIn) == Total(b, RowsIn) && Total(a, CellsIn) == Total(b, CellsIn)
    ensures Total(a, ChunksIn(limits)) == Total(b, ChunksIn(limits)) && |a| == |b|
  {
    hide DistinctBy, RowsFine, RowsAmbiguous, RowsCramped, ChunksIn, RowsIn, CellsIn, Total;
    TotalPermutation(a, b, RowsIn);
    TotalPermutation(a, b, CellsIn);
    TotalPermutation(a, b, ChunksIn(limits));
    SameLength(a, b);
    if DistinctBy(a, IdentityOf) {
      DistinctPermutation(a, b, IdentityOf);
    }
    if DistinctBy(b, IdentityOf) {
      DistinctPermutation(b, a, IdentityOf);
    }
    if SheetsFine(a, limits.maxChars) {
      forall i | 0 <= i < |b| ensures RowsFine(b[i].rows, limits.maxChars) {
        var k := FindIn(b[i], b, a);
      }
    }
    if i :| 0 <= i < |a| && RowsAmbiguous(a[i].rows) {
      var k := FindIn(a[i], a, b);
    }
    if i :| 0 <= i < |a| && RowsCramped(a[i].rows, limits.maxChars) {
      var k := FindIn(a[i], a, b);
    }
  }

  /**
   A spreadsheet is chunked if and only if it has no pages and not too many sheets, no sheet, row or column twice, room for
   every cell, and not too many rows, cells and chunks. An error tells what is wrong.
   */
  lemma {:induction false} SpreadsheetExactly(sheets: seq<Sheet>, pages: nat, limits: Limits)
    ensures var chunks := SpreadsheetChunks(sheets, pages, limits);
            && (chunks.Ok? <==> Chunkable(sheets, pages, limits))
            && (chunks.Ok? ==> |chunks.value| == Total(sheets, ChunksIn(limits)))
            && (chunks == Err(InvalidSource) ==> pages > 0 || |sheets| > limits.maxSheets || SheetsAmbiguous(sheets))
            && (chunks == Err(SourceLimitExceeded) ==> Total(sheets, RowsIn) > limits.maxRows || Total(sheets, CellsIn) > limits.maxCells)
            && (chunks == Err(ResultLimitExceeded) ==> SheetsCramped(sheets, limits.maxChars) || Total(sheets, ChunksIn(limits)) > limits.maxChunks)
  {
    hide SheetsChunks, SheetsFine, SheetsAmbiguous, SheetsCramped, SortSheets, Total, ChunksIn, RowsIn, CellsIn;
    var sorted := SortSheets(sheets);
    SheetsInAnyOrder(sheets, sorted, limits);
    SheetsInAnyOrder(sorted, sheets, limits);
    SheetsChunksOk(sorted, limits);
  }

  ghost predicate AllClean(sheets: seq<Sheet>) {
    forall i :: 0 <= i < |sheets| ==> CleanSheet(sheets[i].rows)
  }

  /**
   Whatever order the sheets of a chunked document are given in: its chunks are numbered and bounded, and reading them back
   gives every sheet in the order of index and name, every row, every coordinate and every value text.
   */
  lemma {:induction false} SpreadsheetReadsBack(sheets: seq<Sheet>, pages: nat, limits: Limits, s: seq<Sheet>)
    requires multiset(s) == multiset(sheets) && SheetsInOrder(s) && SpreadsheetChunks(sheets, pages, limits).Ok?
    ensures WellNumbered(SpreadsheetChunks(sheets, pages, limits).value, limits)
    ensures forall i :: 0 <= i < |s| ==> AllPackable(SortRows(s[i].rows), limits.maxChars)
    ensures AllClean(sheets) ==> ParseDocument(SpreadsheetChunks(sheets, pages, limits).value) == DocumentItems(s, limits.maxChars)
  {
    hide SheetsChunks, SheetsFine, SortSheets, WithinLimits, CleanSheet, DistinctBy, WellNumbered, AllPackable, SheetsInOrder, Spreadsheet.Within;
    SpreadsheetExactly(sheets, pages, limits);
    SheetsInAnyOrder(sheets, s, limits);
    SortSheetsOrdered(sheets);
    assert DistinctBy(s, IdentityOf) by { FineIsDistinct(s, limits.maxChars); }
    OneOrder(s, SortSheets(sheets));
    SheetsChunksBounded(s, limits);
    SheetsPackable(s, limits);
    if AllClean(sheets) {
      forall i | 0 <= i < |s| ensures CleanSheet(s[i].rows) {
        var k := FindIn(s[i], s, sheets);
      }
      DocumentReadsBack(s, limits);
    }
  }

  lemma FineIsDistinct(sheets: seq<Sheet>, maximum: nat)
    requires SheetsFine(sheets, maximum)
    ensures DistinctBy(sheets, IdentityOf)
  {
  }

  lemma {:induction false} SheetsPackable(sheets: seq<Sheet>, limits: Limits)
    requires SheetsFine(sheets, limits.maxChars)
    ensures forall i :: 0 <= i < |sheets| ==> AllPackable(SortRows(sheets[i].rows), limits.maxChars)
  {
    hide HasRoom, Packable, DistinctBy;
    forall i | 0 <= i < |sheets| ensures AllPackable(SortRows(sheets[i].rows), limits.maxChars) {
      var rows := sheets[i].rows;
      var sorted := SortRows(rows);
      assert RowsFine(rows, limits.maxChars);
      forall j | 0 <= j < |sorted| ensures Packable(sorted[j].number, SortCells(sorted[j].cells), limits.maxChars) {
        var k := FindIn(sorted[j], sorted, rows);
        assert RowFine(rows[k], limits.maxChars);
        RoomExactly(sorted[j].number, sorted[j].cells, limits.maxChars);
        PackablePermutation(sorted[j].number, sorted[j].cells, SortCells(sorted[j].cells), limits.maxChars);
      }
    }
  }

  // ---------------------------------------------------------------- what one chunk spans

  /** The chunk holds something, its range runs from its first item to its last, and it has no more rows than allowed. */
  ghost predicate Spans(chunk: Chunk, limits: Limits) {
    var items := ParseChunks([chunk]);
    && items != []
    && chunk.rowStart == items[0].row && chunk.cellStart == items[0].entry.coordinate
    && chunk.rowEnd == items[|items| - 1].row && chunk.cellEnd == items[|items| - 1].entry.coordinate
    && |(set x | x in items :: x.row)| <= limits.rowsPerChunk
  }

  lemma {:induction false} LineItemsEnds(lines: seq<Line>)
    requires lines != [] && AllFilled(lines)
    ensures var items, last := LineItems(lines), lines[|lines| - 1];
            && items != []
            && items[0] == Item(lines[0].row, lines[0].entries[0])
            && items[|items| - 1] == Item(last.row, last.entries[|last.entries| - 1])
    ensures forall x :: x in LineItems(lines) ==> exists i :: 0 <= i < |lines| && lines[i].row == x.row
  {
    if |lines| > 1 {
      var rest := lines[1..];
      LineItemsEnds(rest);
      forall x | x in LineItems(lines) ensures exists i :: 0 <= i < |lines| && lines[i].row == x.row {
        if x in Tagged(lines[0].row, lines[0].entries) {
          assert lines[0].row == x.row;
        } else {
          var i :| 0 <= i < |rest| && rest[i].row == x.row;
          assert lines[i + 1].row == x.row;
        }
      }
    }
  }

  lemma {:induction false} GroupSpans(lines: seq<Line>, limits: Limits)
    requires lines != [] && GoodLines(lines, limits.maxChars) && CleanLines(lines) && AllFilled(lines)
    requires Feasible(UnitsOf(lines), limits)
    ensures Spans(ChunkOf(UnitsOf(lines)), limits)
  {
    hide ParseLines, ParseChunks, LineItems, Render, CleanEntry, Flatten, Join;
    var units := UnitsOf(lines);
    UnitsInverse(lines, limits.maxChars);
    ChunksInverse([units]);
    assert ChunksOf([units]) == [ChunkOf(units)];
    assert Flatten([units]) == units by { FlattenOne(units); }
    LineItemsEnds(lines);
    var items := LineItems(lines);
    forall r | r in (set x | x in items :: x.row) ensures r in Rows(units) {
      var x :| x in items && x.row == r;
      var i :| 0 <= i < |lines| && lines[i].row == x.row;
      assert units[i].row == r;
    }
    SubsetSize((set x | x in items :: x.row), Rows(units));
  }

  lemma FlattenOne(units: seq<Unit>)
    ensures Flatten([units]) == units
  {
    assert Flatten([units]) == units + Flatten([]) == units;
  }

  lemma {:induction false} SheetChunksSpan(rows: seq<SheetRow>, limits: Limits, before: Read, earlier: nat)
    requires CleanSheet(rows) && SheetChunks(rows, limits, before, earlier).Ok?
    ensures var chunks := SheetChunks(rows, limits, before, earlier).value;
            forall i :: 0 <= i < |chunks| ==> Spans(chunks[i], limits)
  {
    hide Greedy, SheetLines, BoundedLines, SortRows, Render, CleanSheet, Spans, CleanLines, GoodLines, Feasible, Flatten;
    var sorted := SortRows(rows);
    SortedClean(rows);
    BoundedLinesGood(sorted, limits, before);
    SheetLinesGood(sorted, limits.maxChars);
    SheetLinesClean(sorted, limits.maxChars);
    var lines := SheetLines(sorted, limits.maxChars).value;
    var units := UnitsOf(lines);
    var groups: seq<seq<Unit>> := Greedy(units, limits);
    GreedyProperties(units, limits);
    forall i | 0 <= i < |groups| ensures Spans(ChunkOf(groups[i]), limits) {
      RowCoverage.GroupSlice(groups, i);
      var a := RowCoverage.Offset(groups, i);
      SliceSpans(lines, limits, a, a + |groups[i]|, groups[i]);
    }
  }

  lemma SliceSpans(lines: seq<Line>, limits: Limits, a: nat, b: nat, group: seq<Unit>)
    requires AllFilled(lines) && GoodLines(lines, limits.maxChars) && CleanLines(lines)
    requires a < b <= |lines| && group == UnitsOf(lines)[a..b] && Feasible(group, limits)
    ensures Spans(ChunkOf(group), limits)
  {
    hide Feasible, Spans, Render, CleanEntry, UnitOf;
    var part := lines[a..b];
    assert AllFilled(part) && GoodLines(part, limits.maxChars) && CleanLines(part);
    assert UnitsOf(part) == group;
    GroupSpans(part, limits);
  }

  lemma {:induction false} SheetsChunksSpan(sheets: seq<Sheet>, limits: Limits)
    requires AllClean(sheets) && SheetsChunks(sheets, limits).Ok?
    ensures var chunks := SheetsChunks(sheets, limits).value.chunks;
            forall i :: 0 <= i < |chunks| ==> Spans(chunks[i].chunk, limits)
  {
    hide SheetChunks, Identities, SortRows, CleanSheet, ReadOn, Spans;
    if sheets != [] {
      var front, last := sheets[..|sheets| - 1], sheets[|sheets| - 1];
      assert forall i :: 0 <= i < |front| ==> front[i] == sheets[i];
      SheetsChunksSpan(front, limits);
      var made := SheetsChunks(front, limits).value;
      SheetChunksSpan(last.rows, limits, made.read, |made.chunks|);
    }
  }

  /** Every chunk of a document says where it begins and ends. */
  lemma {:induction false} SpreadsheetSpans(sheets: seq<Sheet>, pages: nat, limits: Limits)
    requires AllClean(sheets) && SpreadsheetChunks(sheets, pages, limits).Ok?
    ensures var chunks := SpreadsheetChunks(sheets, pages, limits).value;
            forall i :: 0 <= i < |chunks| ==> Spans(chunks[i].chunk, limits)
  {
    hide SheetsChunks, SortSheets, CleanSheet, Spans;
    var sorted := SortSheets(sheets);
    forall i | 0 <= i < |sorted| ensures CleanSheet(sorted[i].rows) {
      var k := FindIn(sorted[i], sorted, sheets);
    }
    SheetsChunksSpan(sorted, limits);
  }

  // ---------------------------------------------------------------- the order of rows and cells

  /** Rows with distinct numbers can be put in order in one way only. */
  lemma {:induction false} RowsOneOrder(rows: seq<SheetRow>, r: seq<SheetRow>)
    requires multiset(r) == multiset(rows) && InOrder(r) && DistinctBy(rows, NumberOf)
    ensures SortRows(rows) == r
  {
    hide SortRows;
    var sorted := SortRows(rows);
    SortRowsOrdered(rows);
    DistinctPermutation(rows, sorted, NumberOf);
    forall x, y | x in sorted && y in sorted && NumberOf(x) <= NumberOf(y) && NumberOf(y) <= NumberOf(x) ensures x == y {
    }
    SameOrder(sorted, r, (x: SheetRow, y: SheetRow) => NumberOf(x) <= NumberOf(y));
  }

  /** Cells with distinct columns can be put in order in one way only. */
  lemma {:induction false} CellsOneOrder(cells: seq<Cell>, r: seq<Cell>)
    requires multiset(r) == multiset(cells) && Ascending(r) && DistinctBy(cells, ColumnOf)
    ensures SortCells(cells) == r
  {
    hide SortCells;
    var sorted := SortCells(cells);
    SortAscending(cells);
    DistinctPermutation(cells, sorted, ColumnOf);
    forall x, y | x in sorted && y in sorted && ColumnOf(x) <= ColumnOf(y) && ColumnOf(y) <= ColumnOf(x) ensures x == y {
    }
    SameOrder(sorted, r, (x: Cell, y: Cell) => ColumnOf(x) <= ColumnOf(y));
  }

  /** A row whose cells all fit a line says each of them once, in order, with its JSON text. */
  lemma {:induction false} RowSaysWhole(row: nat, cells: seq<Cell>, maximum: nat)
    requires forall i :: 0 <= i < |cells| ==> 6 + |Decimal(row)| + |cells[i].coordinate| + |JsonString(cells[i].value)| <= maximum
    ensures Packable(row, cells, maximum)
    ensures var entries := RowEntries(row, cells, maximum);
            && |entries| == |cells|
            && forall i :: 0 <= i < |cells| ==> entries[i] == Entry(cells[i].coordinate, JsonString(cells[i].value))
  {
    hide JsonString, Decimal;
    if cells != [] {
      assert forall i :: 0 <= i < |cells[1..]| ==> cells[1..][i] == cells[i + 1];
      RowSaysWhole(row, cells[1..], maximum);
      PackableHead(row, cells, maximum);
      assert Fits(row, cells[0], maximum);
    }
  }

  function JsonOf(cells: seq<Cell>): (r: seq<string>)
    ensures |r| == |cells| && forall i :: 0 <= i < |r| ==> r[i] == JsonString(cells[i].value)
  {
    seq(|cells|, i requires 0 <= i < |cells| => JsonString(cells[i].value))
  }

  /** Whatever a row is cut into, it says the JSON text of all its cells, in order. */
  lemma {:induction false} RowSaysAll(row: nat, cells: seq<Cell>, maximum: nat)
    requires Packable(row, cells, maximum)
    ensures T.Ink(Flatten(Texts(RowEntries(row, cells, maximum)))) == T.Ink(Flatten(JsonOf(cells)))
  {
    hide T.Ink, Flatten, CellEntries, Fits, Available, JsonString, Packable;
    if cells == [] {
      assert Texts([]) == [] == JsonOf([]);
    } else {
      PackableHead(row, cells, maximum);
      RowSaysAll(row, cells[1..], maximum);
      CellCovered(row, cells[0], maximum);
      var first, rest := CellEntries(row, cells[0], maximum), RowEntries(row, cells[1..], maximum);
      assert Texts(first + rest) == Texts(first) + Texts(rest);
      FlattenConcat(Texts(first), Texts(rest));
      T.InkConcat(Flatten(Texts(first)), Flatten(Texts(rest)));
      assert JsonOf(cells) == [JsonString(cells[0].value)] + JsonOf(cells[1..]);
      FlattenConcat([JsonString(cells[0].value)], JsonOf(cells[1..]));
      FlattenText(JsonString(cells[0].value));
      T.InkConcat(JsonString(cells[0].value), Flatten(JsonOf(cells[1..])));
    }
  }

  lemma FlattenText(s: string)
    ensures Flatten([s]) == s
  {
    assert Flatten([s]) == s + Flatten([]) == s;
  }
}
