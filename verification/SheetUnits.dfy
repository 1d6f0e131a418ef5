/**
 Packing the cells of a spreadsheet row into text units of bounded length.
 */
module SheetUnits {
  import opened Wrappers
  import opened Sequences
  import opened Rendering
  import BoundedText
  import Text

  datatype Cell = Cell(column: nat, coordinate: string, value: string)

  datatype SheetRow = SheetRow(number: nat, cells: seq<Cell>)

  datatype ChunkingError = InvalidSource | SourceLimitExceeded | ResultLimitExceeded

  datatype Unit = Unit(row: nat, cellStart: string, cellEnd: string, content: string)

  /** A cell, or a fragment of one, as it appears in a unit. */
  datatype Entry = Entry(coordinate: string, text: string)

  function Token(e: Entry): string {
    e.coordinate + "=" + e.text
  }

  function Tokens(entries: seq<Entry>): (r: seq<string>)
    ensures |r| == |entries| && forall i :: 0 <= i < |r| ==> r[i] == Token(entries[i])
  {
    seq(|entries|, i requires 0 <= i < |entries| => Token(entries[i]))
  }

  function Prefix(row: nat): string {
    "row " + Decimal(row) + "\t"
  }

  function Render(row: nat, entries: seq<Entry>): string {
    Prefix(row) + Join(Tokens(entries), '\t')
  }

  function UnitOf(row: nat, entries: seq<Entry>): Unit
    requires entries != []
  {
    Unit(row, entries[0].coordinate, entries[|entries| - 1].coordinate, Render(row, entries))
  }

  function Whole(cell: Cell): Entry {
    Entry(cell.coordinate, JsonString(cell.value))
  }

  /** The cell fits on a line of its own. */
  predicate Fits(row: nat, cell: Cell, maximum: nat) {
    |Prefix(row)| + |Token(Whole(cell))| <= maximum
  }

  /** Room left for a fragment of the cell's value. */
  function Available(row: nat, cell: Cell, maximum: nat): int {
    maximum - |Prefix(row) + cell.coordinate + "="|
  }

  /** The entries of one cell: the whole cell if it fits, else one entry per fragment. */
  function CellEntries(row: nat, cell: Cell, maximum: nat): seq<Entry>
    requires Fits(row, cell, maximum) || Available(row, cell, maximum) >= 1
  {
    if Fits(row, cell, maximum) then [Whole(cell)]
    else
      var fragments := BoundedText.Bounded(JsonString(cell.value), Available(row, cell, maximum));
      seq(|fragments|, i requires 0 <= i < |fragments| => Entry(cell.coordinate, fragments[i]))
  }

  predicate Packable(row: nat, cells: seq<Cell>, maximum: nat) {
    forall i :: 0 <= i < |cells| ==> Fits(row, cells[i], maximum) || Available(row, cells[i], maximum) >= 1
  }

  /** What a row says, in column order, independently of how it is cut into units. */
  function RowEntries(row: nat, cells: seq<Cell>, maximum: nat): seq<Entry>
    requires Packable(row, cells, maximum)
  {
    if cells == [] then []
    else CellEntries(row, cells[0], maximum) + RowEntries(row, cells[1..], maximum)
  }

  function Flush(current: seq<Entry>): seq<seq<Entry>> {
    if current == [] then [] else [current]
  }

  function Singles(entries: seq<Entry>): (r: seq<seq<Entry>>)
    ensures |r| == |entries| && forall i :: 0 <= i < |r| ==> r[i] == [entries[i]]
  {
    seq(|entries|, i requires 0 <= i < |entries| => [entries[i]])
  }

  /** The greedy packing of the remaining cells, given the entries of the unit under construction. */
  function Pack(row: nat, cells: seq<Cell>, maximum: nat, current: seq<Entry>): Option<seq<seq<Entry>>>
    decreases |cells|
  {
    if cells == [] then Some(Flush(current))
    else
      var e := Whole(cells[0]);
      if |Render(row, current + [e])| <= maximum then Pack(row, cells[1..], maximum, current + [e])
      else if Fits(row, cells[0], maximum) then Before(Flush(current), Pack(row, cells[1..], maximum, [e]))
      else if Available(row, cells[0], maximum) < 1 then None
      else Before(Flush(current) + Singles(CellEntries(row, cells[0], maximum)), Pack(row, cells[1..], maximum, []))
  }

  function Before(front: seq<seq<Entry>>, rest: Option<seq<seq<Entry>>>): Option<seq<seq<Entry>>> {
    if rest.None? then None else Some(front + rest.value)
  }

  // ---------------------------------------------------------------- sorting by column

  function Insert(cell: Cell, sorted: seq<Cell>): (r: seq<Cell>)
    ensures multiset(r) == multiset(sorted) + multiset{cell}
  {
    if sorted == [] || cell.column <= sorted[0].column then
      [cell] + sorted
    else
      assert sorted == [sorted[0]] + sorted[1..];
      [sorted[0]] + Insert(cell, sorted[1..])
  }

  /** Stable sort by column number; equal columns are rejected afterwards. */
  function SortCells(cells: seq<Cell>): (r: seq<Cell>)
    ensures multiset(r) == multiset(cells)
  {
    if cells == [] then []
    else
      assert cells == [cells[0]] + cells[1..];
      Insert(cells[0], SortCells(cells[1..]))
  }

  predicate Ascending(cells: seq<Cell>) {
    forall i, j :: 0 <= i < j < |cells| ==> cells[i].column <= cells[j].column
  }

  predicate StrictlyAscending(cells: seq<Cell>) {
    forall i, j :: 0 <= i < j < |cells| ==> cells[i].column < cells[j].column
  }

  lemma {:induction false} InsertAscending(cell: Cell, sorted: seq<Cell>)
    requires Ascending(sorted)
    ensures Ascending(Insert(cell, sorted))
    ensures forall x :: x in Insert(cell, sorted) <==> x in sorted || x == cell
  {
    if sorted != [] && cell.column > sorted[0].column {
      InsertAscending(cell, sorted[1..]);
      var rest := Insert(cell, sorted[1..]);
      forall i | 0 <= i < |rest| ensures sorted[0].column <= rest[i].column {
        assert rest[i] in rest;
        assert rest[i] == cell || rest[i] in sorted[1..];
      }
      assert sorted == [sorted[0]] + sorted[1..];
    }
  }

  lemma {:induction false} SortAscending(cells: seq<Cell>)
    ensures Ascending(SortCells(cells))
  {
    if cells != [] {
      SortAscending(cells[1..]);
      InsertAscending(cells[0], SortCells(cells[1..]));
    }
  }

  // ---------------------------------------------------------------- the row

  /** The units of a row, or the reason why it has none. */
  function RowUnits(row: SheetRow, maximum: nat): Result<seq<seq<Entry>>, ChunkingError> {
    var cells := SortCells(row.cells);
    if !StrictlyAscending(cells) then Err(InvalidSource)
    else
      var packed := Pack(row.number, cells, maximum, []);
      if packed.None? then Err(ResultLimitExceeded) else Ok(packed.value)
  }

  function AsUnits(row: nat, groups: seq<seq<Entry>>): (r: seq<Unit>)
    requires forall i :: 0 <= i < |groups| ==> groups[i] != []
    ensures |r| == |groups| && forall i :: 0 <= i < |r| ==> r[i] == UnitOf(row, groups[i])
  {
    seq(|groups|, i requires 0 <= i < |groups| => UnitOf(row, groups[i]))
  }

  /** Every unit is non-empty and within the limit. */
  ghost predicate GoodUnits(row: nat, groups: seq<seq<Entry>>, maximum: nat) {
    forall i :: 0 <= i < |groups| ==> groups[i] != [] && |Render(row, groups[i])| <= maximum
  }

  lemma FlattenSingles(entries: seq<Entry>)
    ensures Flatten(Singles(entries)) == entries
  {
    if entries != [] {
      assert Singles(entries)[1..] == Singles(entries[1..]);
      FlattenSingles(entries[1..]);
    }
  }

  lemma FlattenFlush(current: seq<Entry>)
    ensures Flatten(Flush(current)) == current
  {
  }

  /** A fragmented cell has at least one fragment, and each fragment line is within the limit. */
  lemma FragmentsFit(row: nat, cell: Cell, maximum: nat)
    requires !Fits(row, cell, maximum) && Available(row, cell, maximum) >= 1
    ensures CellEntries(row, cell, maximum) != []
    ensures GoodUnits(row, Singles(CellEntries(row, cell, maximum)), maximum)
  {
    hide JsonString, BoundedText.Bounded;
    var json := JsonString(cell.value);
    JsonIsPrintable(cell.value);
    BoundedText.BoundedProperties(json, Available(row, cell, maximum));
    assert !Text.AllSpace(json) by {
      assert !Text.IsSpace(json[0]);
    }
    var entries := CellEntries(row, cell, maximum);
    forall i | 0 <= i < |entries| ensures |Render(row, [entries[i]])| <= maximum {
      assert Tokens([entries[i]]) == [Token(entries[i])];
    }
  }

  lemma WholeFits(row: nat, cell: Cell, maximum: nat)
    ensures |Render(row, [Whole(cell)])| == |Prefix(row)| + |Token(Whole(cell))|
  {
    assert Tokens([Whole(cell)]) == [Token(Whole(cell))];
  }

  lemma GoodConcat(row: nat, a: seq<seq<Entry>>, b: seq<seq<Entry>>, maximum: nat)
    requires GoodUnits(row, a, maximum) && GoodUnits(row, b, maximum)
    ensures GoodUnits(row, a + b, maximum)
  {
    hide Render;
  }

  /** What packing the remaining cells after `current` achieves. */
  ghost predicate PackedWell(row: nat, cells: seq<Cell>, maximum: nat, current: seq<Entry>) {
    var packed := Pack(row, cells, maximum, current);
    && (packed.Some? <==> Packable(row, cells, maximum))
    && (packed.Some? && Packable(row, cells, maximum) ==>
          && Flatten(packed.value) == current + RowEntries(row, cells, maximum)
          && GoodUnits(row, packed.value, maximum))
  }

  /** The cell stays on the current line. */
  lemma PackStays(row: nat, cells: seq<Cell>, maximum: nat, current: seq<Entry>)
    requires cells != [] && |Render(row, current + [Whole(cells[0])])| <= maximum
    requires PackedWell(row, cells[1..], maximum, current + [Whole(cells[0])])
    ensures PackedWell(row, cells, maximum, current)
  {
    hide Render, Fits, Available, CellEntries, Whole, GoodUnits, Packable;
    var e := Whole(cells[0]);
    PackableHead(row, cells, maximum);
    WholeCell(row, cells[0], maximum);
    CurrentFits(row, current, cells[0], maximum);
    if Packable(row, cells, maximum) {
      assert current + [e] + RowEntries(row, cells[1..], maximum) == current + ([e] + RowEntries(row, cells[1..], maximum));
    }
  }

  /** The current line is finished first; `front` holds it and the fragments of the cell, if any. */
  lemma {:induction false} PackFlushes(row: nat, cells: seq<Cell>, maximum: nat, current: seq<Entry>, front: seq<seq<Entry>>, next: seq<Entry>)
    requires cells != [] && Pack(row, cells, maximum, current) == Before(front, Pack(row, cells[1..], maximum, next))
    requires Fits(row, cells[0], maximum) || Available(row, cells[0], maximum) >= 1
    requires Flatten(front) + next == current + CellEntries(row, cells[0], maximum) && GoodUnits(row, front, maximum)
    requires PackedWell(row, cells[1..], maximum, next)
    ensures PackedWell(row, cells, maximum, current)
  {
    hide Render, Fits, Available, CellEntries, Whole, GoodUnits, Packable, Pack;
    PackableHead(row, cells, maximum);
    if Packable(row, cells, maximum) {
      var rest := Pack(row, cells[1..], maximum, next).value;
      FlattenConcat(front, rest);
      GoodConcat(row, front, rest, maximum);
      var tail := RowEntries(row, cells[1..], maximum);
      assert Flatten(front) + (next + tail) == Flatten(front) + next + tail;
      assert current + CellEntries(row, cells[0], maximum) + tail == current + (CellEntries(row, cells[0], maximum) + tail);
    }
  }

  lemma FlushedFragments(row: nat, cell: Cell, maximum: nat, current: seq<Entry>)
    requires current == [] || |Render(row, current)| <= maximum
    requires !Fits(row, cell, maximum) && Available(row, cell, maximum) >= 1
    ensures var front := Flush(current) + Singles(CellEntries(row, cell, maximum));
            Flatten(front) + [] == current + CellEntries(row, cell, maximum) && GoodUnits(row, front, maximum)
  {
    hide Render, Fits, Available, CellEntries;
    var singles := Singles(CellEntries(row, cell, maximum));
    FragmentsFit(row, cell, maximum);
    FlattenFlush(current);
    FlattenConcat(Flush(current), singles);
    FlattenSingles(CellEntries(row, cell, maximum));
    GoodConcat(row, Flush(current), singles, maximum);
  }

  /**
   Packing succeeds exactly when every cell either fits or leaves room for fragments; it then cuts the entries of
   the row into non-empty units within the limit without losing, repeating or reordering any of them.
   */
  lemma {:induction false} PackProperties(row: nat, cells: seq<Cell>, maximum: nat, current: seq<Entry>)
    requires current == [] || |Render(row, current)| <= maximum
    ensures PackedWell(row, cells, maximum, current)
    decreases |cells|
  {
    hide Render, Fits, Available, CellEntries, Whole, PackedWell;
    if cells == [] {
      PackEmpty(row, maximum, current);
    } else {
      var cell := cells[0];
      var e := Whole(cell);
      if |Render(row, current + [e])| <= maximum {
        PackProperties(row, cells[1..], maximum, current + [e]);
        PackStays(row, cells, maximum, current);
      } else if Fits(row, cell, maximum) {
        WholeFits(row, cell, maximum);
        FitsMeans(row, cell, maximum);
        WholeCell(row, cell, maximum);
        PackProperties(row, cells[1..], maximum, [e]);
        FlattenFlush(current);
        PackFlushes(row, cells, maximum, current, Flush(current), [e]);
      } else if Available(row, cell, maximum) >= 1 {
        PackProperties(row, cells[1..], maximum, []);
        FlushedFragments(row, cell, maximum, current);
        PackFlushes(row, cells, maximum, current, Flush(current) + Singles(CellEntries(row, cell, maximum)), []);
      } else {
        PackFails(row, cells, maximum, current);
      }
    }
  }

  lemma PackEmpty(row: nat, maximum: nat, current: seq<Entry>)
    requires current == [] || |Render(row, current)| <= maximum
    ensures PackedWell(row, [], maximum, current)
  {
    FlattenFlush(current);
    assert current + [] == current;
  }

  lemma PackFails(row: nat, cells: seq<Cell>, maximum: nat, current: seq<Entry>)
    requires cells != [] && |Render(row, current + [Whole(cells[0])])| > maximum
    requires !Fits(row, cells[0], maximum) && Available(row, cells[0], maximum) < 1
    ensures PackedWell(row, cells, maximum, current)
  {
    hide Render, Fits, Available, CellEntries, Whole;
    PackableHead(row, cells, maximum);
  }

  lemma PackableHead(row: nat, cells: seq<Cell>, maximum: nat)
    requires cells != []
    ensures Packable(row, cells, maximum) <==>
            (Fits(row, cells[0], maximum) || Available(row, cells[0], maximum) >= 1) && Packable(row, cells[1..], maximum)
  {
    hide Fits, Available;
    assert forall i :: 1 <= i < |cells| ==> cells[i] == cells[1..][i - 1];
  }

  lemma WholeCell(row: nat, cell: Cell, maximum: nat)
    ensures Fits(row, cell, maximum) ==> CellEntries(row, cell, maximum) == [Whole(cell)]
  {
  }

  lemma FitsMeans(row: nat, cell: Cell, maximum: nat)
    requires Fits(row, cell, maximum)
    ensures |Prefix(row)| + |Token(Whole(cell))| <= maximum
  {
  }

  /** A cell that still fits on the current line would also fit on a line of its own. */
  lemma CurrentFits(row: nat, current: seq<Entry>, cell: Cell, maximum: nat)
    requires |Render(row, current + [Whole(cell)])| <= maximum
    ensures Fits(row, cell, maximum)
  {
    var e := Whole(cell);
    assert Tokens(current + [e]) == Tokens(current) + [Token(e)];
    if current != [] {
      JoinConcat(Tokens(current), [Token(e)], '\t');
    } else {
      assert Tokens(current + [e]) == [Token(e)];
    }
  }

  // ---------------------------------------------------------------- units are as long as they may be

  /** The entry is a whole cell that fits a line. */
  ghost predicate IsWhole(row: nat, cells: seq<Cell>, maximum: nat, e: Entry) {
    exists i :: 0 <= i < |cells| && Fits(row, cells[i], maximum) && e == Whole(cells[i])
  }

  /** The entry is a fragment of a cell that does not fit a line. */
  ghost predicate IsFragment(row: nat, cells: seq<Cell>, maximum: nat, e: Entry) {
    exists i :: 0 <= i < |cells| && !Fits(row, cells[i], maximum) && Available(row, cells[i], maximum) >= 1 &&
                e in CellEntries(row, cells[i], maximum)
  }

  /** The second unit does not go on the line of the first: its first entry is too long for it, or one of both is a fragment. */
  ghost predicate Tight(row: nat, cells: seq<Cell>, maximum: nat, a: seq<Entry>, b: seq<Entry>) {
    a != [] && b != [] ==>
      || |Render(row, a + [b[0]])| > maximum
      || IsFragment(row, cells, maximum, a[|a| - 1]) || IsFragment(row, cells, maximum, b[0])
  }

  /** Neighbouring units are tight, and only whole cells share a unit. */
  ghost predicate AllTight(row: nat, cells: seq<Cell>, maximum: nat, groups: seq<seq<Entry>>) {
    && (forall i :: 0 <= i < |groups| - 1 ==> Tight(row, cells, maximum, groups[i], groups[i + 1]))
    && (forall i, j :: 0 <= i < |groups| && |groups[i]| > 1 && 0 <= j < |groups[i]| ==> IsWhole(row, cells, maximum, groups[i][j]))
  }

  lemma TightConcat(row: nat, cells: seq<Cell>, maximum: nat, a: seq<seq<Entry>>, b: seq<seq<Entry>>)
    requires AllTight(row, cells, maximum, a) && AllTight(row, cells, maximum, b)
    requires a != [] && b != [] ==> Tight(row, cells, maximum, a[|a| - 1], b[0])
    ensures AllTight(row, cells, maximum, a + b)
  {
    hide Tight, IsWhole;
    var all := a + b;
    forall i | 0 <= i < |all| - 1 ensures Tight(row, cells, maximum, all[i], all[i + 1]) {
      if i >= |a| {
        assert all[i] == b[i - |a|] && all[i + 1] == b[i + 1 - |a|];
      } else if i == |a| - 1 {
        assert all[i] == a[i] && all[i + 1] == b[0];
      }
    }
  }

  lemma SinglesTight(row: nat, cells: seq<Cell>, maximum: nat, k: nat)
    requires k < |cells| && !Fits(row, cells[k], maximum) && Available(row, cells[k], maximum) >= 1
    ensures AllTight(row, cells, maximum, Singles(CellEntries(row, cells[k], maximum)))
    ensures forall e :: e in CellEntries(row, cells[k], maximum) ==> IsFragment(row, cells, maximum, e)
  {
    hide Fits, Available, CellEntries, Render, IsWhole;
    var entries := CellEntries(row, cells[k], maximum);
    forall e | e in entries ensures IsFragment(row, cells, maximum, e) {
    }
    hide IsFragment;
    var singles := Singles(entries);
    forall i | 0 <= i < |singles| - 1 ensures Tight(row, cells, maximum, singles[i], singles[i + 1]) {
      assert singles[i][|singles[i]| - 1] == entries[i] && entries[i] in entries;
    }
  }

  /** What remains of the cells is packed tightly, with the current unit at its front. */
  lemma {:induction false} PackTight(row: nat, all: seq<Cell>, k: nat, maximum: nat, current: seq<Entry>)
    requires k <= |all| && forall j :: 0 <= j < |current| ==> IsWhole(row, all, maximum, current[j])
    requires Pack(row, all[k..], maximum, current).Some?
    ensures var groups := Pack(row, all[k..], maximum, current).value;
            && AllTight(row, all, maximum, groups)
            && (current != [] ==> groups != [] && current <= groups[0])
    decreases |all| - k
  {
    hide Fits, Available, CellEntries, Render, IsWhole, IsFragment, Whole;
    var groups := Pack(row, all[k..], maximum, current).value;
    if k == |all| {
      assert all[k..] == [];
    } else {
      var cell, e := all[k], Whole(all[k]);
      assert all[k..][0] == cell && all[k..][1..] == all[k + 1..];
      if |Render(row, current + [e])| <= maximum {
        CurrentFits(row, current, cell, maximum);
        WholeIsWhole(row, all, maximum, k);
        PackTight(row, all, k + 1, maximum, current + [e]);
        assert current <= current + [e];
      } else if Fits(row, cell, maximum) {
        WholeIsWhole(row, all, maximum, k);
        PackTight(row, all, k + 1, maximum, [e]);
        var rest := Pack(row, all[k + 1..], maximum, [e]).value;
        assert rest[0][0] == e;
        TightConcat(row, all, maximum, Flush(current), rest);
      } else {
        PackTight(row, all, k + 1, maximum, []);
        var rest := Pack(row, all[k + 1..], maximum, []).value;
        SinglesTight(row, all, maximum, k);
        FragmentsFit(row, cell, maximum);
        var entries := CellEntries(row, cell, maximum);
        var singles := Singles(entries);
        assert entries[0] in entries && entries[|entries| - 1] in entries;
        assert singles[0] == [entries[0]] && singles[|singles| - 1] == [entries[|entries| - 1]];
        TightConcat(row, all, maximum, Flush(current), singles);
        var front := Flush(current) + singles;
        assert front[|front| - 1] == singles[|singles| - 1];
        TightConcat(row, all, maximum, front, rest);
      }
    }
  }

  lemma WholeIsWhole(row: nat, cells: seq<Cell>, maximum: nat, k: nat)
    requires k < |cells| && Fits(row, cells[k], maximum)
    ensures IsWhole(row, cells, maximum, Whole(cells[k]))
  {
  }

  /** The units of a row hold its entries in order, each is within the limit, and none could be longer. */
  lemma {:induction false} RowUnitsTight(row: SheetRow, maximum: nat)
    requires RowUnits(row, maximum).Ok?
    ensures Packable(row.number, SortCells(row.cells), maximum)
    ensures var groups, cells := RowUnits(row, maximum).value, SortCells(row.cells);
            && Flatten(groups) == RowEntries(row.number, cells, maximum)
            && GoodUnits(row.number, groups, maximum) && AllTight(row.number, cells, maximum, groups)
  {
    hide Render, Fits, Available, CellEntries, AllTight, Pack;
    var cells := SortCells(row.cells);
    assert cells[0..] == cells;
    PackProperties(row.number, cells, maximum, []);
    PackTight(row.number, cells, 0, maximum, []);
    assert [] + RowEntries(row.number, cells, maximum) == RowEntries(row.number, cells, maximum);
  }

  /** The packing loop of one row. */
  method PackRow(row: SheetRow, maximum: nat) returns (units: Result<seq<Unit>, ChunkingError>)
    ensures units.Err? <==> RowUnits(row, maximum).Err?
    ensures units.Err? ==> units.error == RowUnits(row, maximum).error
    ensures units.Ok? ==>
              && (forall i :: 0 <= i < |RowUnits(row, maximum).value| ==> RowUnits(row, maximum).value[i] != [])
              && units.value == AsUnits(row.number, RowUnits(row, maximum).value)
  {
    hide Render, Fits, Available, CellEntries, Whole, Packable;
    var cells := SortCells(row.cells);
    PackProperties(row.number, cells, maximum, []);
    if !StrictlyAscending(cells) {
      return Err(InvalidSource);
    }
    var groups: seq<seq<Entry>> := [];
    var current: seq<Entry> := [];
    assert cells[0..] == cells;
    BeforeNothing(Pack(row.number, cells, maximum, []));
    for i := 0 to |cells|
      invariant Pack(row.number, cells, maximum, []) == Before(groups, Pack(row.number, cells[i..], maximum, current))
    {
      var e := Whole(cells[i]);
      assert cells[i..][0] == cells[i] && cells[i..][1..] == cells[i + 1..];
      BeforeBefore(groups, Flush(current), Pack(row.number, cells[i + 1..], maximum, [e]));
      if |Render(row.number, current + [e])| <= maximum {
        current := current + [e];
      } else {
        if Fits(row.number, cells[i], maximum) {
          groups := groups + Flush(current);
          current := [e];
        } else if Available(row.number, cells[i], maximum) < 1 {
          return Err(ResultLimitExceeded);
        } else {
          var singles := Singles(CellEntries(row.number, cells[i], maximum));
          BeforeBefore(groups, Flush(current) + singles, Pack(row.number, cells[i + 1..], maximum, []));
          groups := groups + (Flush(current) + singles);
          current := [];
        }
      }
    }
    assert cells[|cells|..] == [];
    groups := groups + Flush(current);
    return Ok(AsUnits(row.number, groups));
  }

  lemma BeforeNothing(rest: Option<seq<seq<Entry>>>)
    ensures Before([], rest) == rest
  {
    if rest.Some? {
      assert [] + rest.value == rest.value;
    }
  }

  lemma BeforeBefore(a: seq<seq<Entry>>, b: seq<seq<Entry>>, rest: Option<seq<seq<Entry>>>)
    ensures Before(a, Before(b, rest)) == Before(a + b, rest)
  {
    if rest.Some? {
      assert a + (b + rest.value) == a + b + rest.value;
    }
  }
}
