/**
 Chunking a whole sheet, and what can be read back from its chunks.
 */
module Spreadsheet {
  import opened Wrappers
  import opened Sequences
  import opened Rendering
  import opened SheetUnits
  import opened Grouping
  import BoundedText
  import T = Text

  /** A unit before it is rendered. */
  datatype Line = Line(row: nat, entries: seq<Entry>)

  // ---------------------------------------------------------------- rows in order

  function InsertRow(row: SheetRow, sorted: seq<SheetRow>): (r: seq<SheetRow>)
    ensures multiset(r) == multiset(sorted) + multiset{row}
  {
    if sorted == [] || row.number <= sorted[0].number then [row] + sorted
    else
      assert sorted == [sorted[0]] + sorted[1..];
      [sorted[0]] + InsertRow(row, sorted[1..])
  }

  /** Stable sort by row number; equal numbers are rejected afterwards. */
  function SortRows(rows: seq<SheetRow>): (r: seq<SheetRow>)
    ensures multiset(r) == multiset(rows)
  {
    if rows == [] then []
    else
      assert rows == [rows[0]] + rows[1..];
      InsertRow(rows[0], SortRows(rows[1..]))
  }

  ghost predicate InOrder(rows: seq<SheetRow>) {
    forall i, j :: 0 <= i < j < |rows| ==> rows[i].number <= rows[j].number
  }

  lemma {:induction false} InsertRowOrdered(row: SheetRow, sorted: seq<SheetRow>)
    requires InOrder(sorted)
    ensures InOrder(InsertRow(row, sorted))
    ensures forall x :: x in InsertRow(row, sorted) <==> x in sorted || x == row
  {
    if sorted != [] && row.number > sorted[0].number {
      InsertRowOrdered(row, sorted[1..]);
      var rest := InsertRow(row, sorted[1..]);
      forall i | 0 <= i < |rest| ensures sorted[0].number <= rest[i].number {
        assert rest[i] in rest;
        assert rest[i] == row || rest[i] in sorted[1..];
      }
      assert sorted == [sorted[0]] + sorted[1..];
    }
  }

  lemma {:induction false} SortRowsOrdered(rows: seq<SheetRow>)
    ensures InOrder(SortRows(rows))
  {
    if rows != [] {
      SortRowsOrdered(rows[1..]);
      InsertRowOrdered(rows[0], SortRows(rows[1..]));
    }
  }

  // ---------------------------------------------------------------- units of a sheet

  function Numbers(rows: seq<SheetRow>): set<nat> {
    set i | 0 <= i < |rows| :: rows[i].number
  }

  function LinesOf(row: nat, groups: seq<seq<Entry>>): (r: seq<Line>)
    ensures |r| == |groups| && forall i :: 0 <= i < |r| ==> r[i] == Line(row, groups[i])
  {
    seq(|groups|, i requires 0 <= i < |groups| => Line(row, groups[i]))
  }

  /** The lines of rows already in order, or the first error. */
  function SheetLines(rows: seq<SheetRow>, maximum: nat): Result<seq<Line>, ChunkingError> {
    if rows == [] then Ok([])
    else
      var front, last := SheetLines(rows[..|rows| - 1], maximum), rows[|rows| - 1];
      if front.Err? then front
      else if last.number in Numbers(rows[..|rows| - 1]) then Err(InvalidSource)
      else match RowUnits(last, maximum)
        case Err(e) => Err(e)
        case Ok(groups) => Ok(front.value + LinesOf(last.number, groups))
  }

  ghost predicate GoodLines(lines: seq<Line>, maximum: nat) {
    forall i :: 0 <= i < |lines| ==> lines[i].entries != [] && |Render(lines[i].row, lines[i].entries)| <= maximum
  }

  predicate AllFilled(lines: seq<Line>) {
    forall i :: 0 <= i < |lines| ==> lines[i].entries != []
  }

  function UnitsOf(lines: seq<Line>): (r: seq<Unit>)
    requires AllFilled(lines)
    ensures |r| == |lines| && forall i :: 0 <= i < |r| ==> r[i] == UnitOf(lines[i].row, lines[i].entries)
  {
    seq(|lines|, i requires 0 <= i < |lines| => UnitOf(lines[i].row, lines[i].entries))
  }

  lemma {:induction false} RowUnitsGood(row: SheetRow, maximum: nat)
    requires RowUnits(row, maximum).Ok?
    ensures GoodLines(LinesOf(row.number, RowUnits(row, maximum).value), maximum)
    ensures Packable(row.number, SortCells(row.cells), maximum)
    ensures Flatten(RowUnits(row, maximum).value) == RowEntries(row.number, SortCells(row.cells), maximum)
  {
    hide Render, Fits, Available, CellEntries;
    PackProperties(row.number, SortCells(row.cells), maximum, []);
    assert [] + RowEntries(row.number, SortCells(row.cells), maximum) == RowEntries(row.number, SortCells(row.cells), maximum);
  }

  lemma {:induction false} SheetLinesGood(rows: seq<SheetRow>, maximum: nat)
    ensures SheetLines(rows, maximum).Ok? ==>
              GoodLines(SheetLines(rows, maximum).value, maximum) && AllFilled(SheetLines(rows, maximum).value)
  {
    hide Render, RowUnits, Numbers, GoodLines, AllFilled, LinesOf, Packable, RowEntries, Flatten;
    if rows == [] {
      NoLinesGood(maximum);
    } else if SheetLines(rows, maximum).Ok? {
      var front, last := rows[..|rows| - 1], rows[|rows| - 1];
      SheetLinesGood(front, maximum);
      RowUnitsGood(last, maximum);
      GoodLinesAppend(SheetLines(front, maximum).value, LinesOf(last.number, RowUnits(last, maximum).value), maximum);
    }
  }

  lemma NoLinesGood(maximum: nat)
    ensures GoodLines([], maximum) && AllFilled([])
  {
  }

  lemma GoodLinesAppend(a: seq<Line>, b: seq<Line>, maximum: nat)
    requires GoodLines(a, maximum) && GoodLines(b, maximum)
    ensures GoodLines(a + b, maximum) && AllFilled(a + b)
  {
    hide Render;
  }

  // ---------------------------------------------------------------- the chunks

  /** Adds a chunk to those of the sheet, when the sheets before it gave `earlier` ones. */
  function Append(chunks: seq<Chunk>, earlier: nat, chunk: Chunk, limits: Limits): Result<seq<Chunk>, ChunkingError> {
    if |chunk.content| > limits.maxChars then Err(ResultLimitExceeded)
    else if earlier + |chunks| >= limits.maxChunks then Err(ResultLimitExceeded)
    else Ok(chunks + [chunk])
  }

  function ChunksOf(groups: seq<seq<Unit>>): (r: seq<Chunk>)
    requires forall i :: 0 <= i < |groups| ==> groups[i] != []
    ensures |r| == |groups| && forall i :: 0 <= i < |r| ==> r[i] == ChunkOf(groups[i])
  {
    seq(|groups|, i requires 0 <= i < |groups| => ChunkOf(groups[i]))
  }

  /** How much of a document has been read: rows and cells, over all its sheets. */
  datatype Read = Read(rows: nat, cells: nat)

  function Cells(rows: seq<SheetRow>): nat {
    if rows == [] then 0 else Cells(rows[..|rows| - 1]) + |rows[|rows| - 1].cells|
  }

  function ReadOn(before: Read, rows: seq<SheetRow>): Read {
    Read(before.rows + |rows|, before.cells + Cells(rows))
  }

  predicate Within(read: Read, limits: Limits) {
    read.rows <= limits.maxRows && read.cells <= limits.maxCells
  }

  /** The lines of rows already in order, as far as the document's limits on rows and cells allow. */
  function BoundedLines(rows: seq<SheetRow>, limits: Limits, before: Read): Result<seq<Line>, ChunkingError> {
    if rows == [] then Ok([])
    else
      var front, last := BoundedLines(rows[..|rows| - 1], limits, before), rows[|rows| - 1];
      if front.Err? then front
      else if last.number in Numbers(rows[..|rows| - 1]) then Err(InvalidSource)
      else if !Within(ReadOn(before, rows), limits) then Err(SourceLimitExceeded)
      else match RowUnits(last, limits.maxChars)
        case Err(e) => Err(e)
        case Ok(groups) => Ok(front.value + LinesOf(last.number, groups))
  }

  /** Within the limits they are the lines of the sheet; beyond them there are none. */
  lemma {:induction false} BoundedLinesExactly(rows: seq<SheetRow>, limits: Limits, before: Read)
    ensures Within(ReadOn(before, rows), limits) ==> BoundedLines(rows, limits, before) == SheetLines(rows, limits.maxChars)
    ensures rows != [] && !Within(ReadOn(before, rows), limits) ==> BoundedLines(rows, limits, before).Err?
  {
    hide RowUnits, Numbers;
    if rows != [] {
      BoundedLinesExactly(rows[..|rows| - 1], limits, before);
    }
  }

  /** Collects the units of a sheet row by row, counting rows and cells on. */
  method CollectUnits(rows: seq<SheetRow>, limits: Limits, before: Read) returns (units: Result<seq<Unit>, ChunkingError>, read: Read)
    ensures units.Err? ==> BoundedLines(SortRows(rows), limits, before) == Err(units.error)
    ensures units.Ok? ==>
              && read == ReadOn(before, SortRows(rows))
              && BoundedLines(SortRows(rows), limits, before).Ok?
              && AllFilled(BoundedLines(SortRows(rows), limits, before).value)
              && units.value == UnitsOf(BoundedLines(SortRows(rows), limits, before).value)
  {
    hide Render, RowUnits, BoundedLines, Numbers, SortRows, GoodLines;
    var sorted := SortRows(rows);
    BoundedLinesStart(sorted, limits, before);
    var seen: set<nat> := {};
    var collected: seq<Unit> := [];
    read := before;
    for i := 0 to |sorted|
      invariant seen == Numbers(sorted[..i]) && read == ReadOn(before, sorted[..i])
      invariant BoundedLines(sorted[..i], limits, before).Ok?
      invariant AllFilled(BoundedLines(sorted[..i], limits, before).value)
      invariant collected == UnitsOf(BoundedLines(sorted[..i], limits, before).value)
    {
      BoundedLinesStep(sorted, limits, before, i);
      if sorted[i].number in seen {
        ErrorStays(sorted, limits, before, i + 1);
        return Err(InvalidSource), read;
      }
      NumbersStep(sorted, i);
      seen := seen + {sorted[i].number};
      read := Read(read.rows + 1, read.cells + |sorted[i].cells|);
      if read.rows > limits.maxRows || read.cells > limits.maxCells {
        ErrorStays(sorted, limits, before, i + 1);
        return Err(SourceLimitExceeded), read;
      }
      var packed := PackRow(sorted[i], limits.maxChars);
      if packed.Err? {
        ErrorStays(sorted, limits, before, i + 1);
        return Err(packed.error), read;
      }
      RowUnitsFilled(sorted[i], limits.maxChars);
      UnitsAppend(BoundedLines(sorted[..i], limits, before).value, sorted[i].number, RowUnits(sorted[i], limits.maxChars).value);
      collected := collected + packed.value;
    }
    assert sorted[..|sorted|] == sorted;
    return Ok(collected), read;
  }

  lemma RowUnitsFilled(row: SheetRow, maximum: nat)
    requires RowUnits(row, maximum).Ok?
    ensures forall i :: 0 <= i < |RowUnits(row, maximum).value| ==> RowUnits(row, maximum).value[i] != []
  {
    hide Render, RowUnits;
    RowUnitsGood(row, maximum);
    var groups := RowUnits(row, maximum).value;
    forall i | 0 <= i < |groups| ensures groups[i] != [] {
      assert LinesOf(row.number, groups)[i].entries != [];
    }
  }

  lemma {:induction false} BoundedLinesStart(rows: seq<SheetRow>, limits: Limits, before: Read)
    ensures BoundedLines(rows[..0], limits, before) == Ok([]) && Numbers(rows[..0]) == {} && ReadOn(before, rows[..0]) == before
  {
  }

  lemma {:induction false} BoundedLinesStep(rows: seq<SheetRow>, limits: Limits, before: Read, i: nat)
    requires i < |rows| && BoundedLines(rows[..i], limits, before).Ok?
    ensures var read := ReadOn(before, rows[..i]);
            ReadOn(before, rows[..i + 1]) == Read(read.rows + 1, read.cells + |rows[i].cells|)
    ensures BoundedLines(rows[..i + 1], limits, before) ==
            if rows[i].number in Numbers(rows[..i]) then Err(InvalidSource)
            else if !Within(ReadOn(before, rows[..i + 1]), limits) then Err(SourceLimitExceeded)
            else match RowUnits(rows[i], limits.maxChars)
              case Err(e) => Err(e)
              case Ok(groups) => Ok(BoundedLines(rows[..i], limits, before).value + LinesOf(rows[i].number, groups))
  {
    hide RowUnits;
    assert rows[..i + 1][..i] == rows[..i];
  }

  lemma UnitsAppend(lines: seq<Line>, row: nat, groups: seq<seq<Entry>>)
    requires AllFilled(lines) && forall i :: 0 <= i < |groups| ==> groups[i] != []
    ensures AllFilled(lines + LinesOf(row, groups))
    ensures UnitsOf(lines + LinesOf(row, groups)) == UnitsOf(lines) + AsUnits(row, groups)
  {
    hide UnitOf;
  }

  lemma NumbersStep(rows: seq<SheetRow>, i: nat)
    requires i < |rows|
    ensures Numbers(rows[..i + 1]) == Numbers(rows[..i]) + {rows[i].number}
  {
    forall n | n in Numbers(rows[..i + 1]) ensures n in Numbers(rows[..i]) + {rows[i].number} {
      var k :| 0 <= k < i + 1 && rows[..i + 1][k].number == n;
      if k < i { assert rows[..i][k].number == n; }
    }
    forall n | n in Numbers(rows[..i]) + {rows[i].number} ensures n in Numbers(rows[..i + 1]) {
      if n == rows[i].number {
        assert rows[..i + 1][i].number == n;
      } else {
        var k :| 0 <= k < i && rows[..i][k].number == n;
        assert rows[..i + 1][k].number == n;
      }
    }
  }

  lemma {:induction false} ErrorStays(rows: seq<SheetRow>, limits: Limits, before: Read, n: nat)
    requires n <= |rows| && BoundedLines(rows[..n], limits, before).Err?
    ensures BoundedLines(rows, limits, before) == BoundedLines(rows[..n], limits, before)
    decreases |rows| - n
  {
    hide RowUnits;
    if n == |rows| {
      assert rows[..n] == rows;
    } else {
      assert rows[..n + 1][..n] == rows[..n];
      ErrorStays(rows, limits, before, n + 1);
    }
  }

  lemma {:induction false} BoundedLinesGood(rows: seq<SheetRow>, limits: Limits, before: Read)
    requires BoundedLines(rows, limits, before).Ok?
    ensures SheetLines(rows, limits.maxChars) == BoundedLines(rows, limits, before)
    ensures var lines := BoundedLines(rows, limits, before).value;
            AllFilled(lines) && forall i :: 0 <= i < |lines| ==> |UnitsOf(lines)[i].content| <= limits.maxChars
    ensures rows != [] ==> Within(ReadOn(before, rows), limits)
  {
    hide Render, RowUnits, Numbers, SheetLines;
    BoundedLinesExactly(rows, limits, before);
    if rows == [] {
      assert SheetLines([], limits.maxChars) == Ok([]) by { EmptyLines(limits.maxChars); }
    }
    SheetLinesGood(rows, limits.maxChars);
  }

  lemma {:induction false} EmptyLines(maximum: nat)
    ensures SheetLines([], maximum) == Ok([])
  {
  }

  /**
   The chunks of a sheet, after `before` was read and `earlier` chunks were made of the document: its rows in order, cut
   into units, grouped greedily. Apart from a bad source, only a limit on rows, cells or chunks is an error; the length
   check of `Append` never fires.
   */
  function SheetChunks(rows: seq<SheetRow>, limits: Limits, before: Read, earlier: nat): Result<seq<Chunk>, ChunkingError> {
    var lines := BoundedLines(SortRows(rows), limits, before);
    if lines.Err? then Err(lines.error)
    else
      BoundedLinesGood(SortRows(rows), limits, before);
      GreedyProperties(UnitsOf(lines.value), limits);
      var groups := Greedy(UnitsOf(lines.value), limits);
      if groups != [] && earlier + |groups| > limits.maxChunks then Err(ResultLimitExceeded) else Ok(ChunksOf(groups))
  }

  method ChunkSheet(rows: seq<SheetRow>, limits: Limits, before: Read, earlier: nat)
    returns (chunks: Result<seq<Chunk>, ChunkingError>, read: Read)
    ensures chunks == SheetChunks(rows, limits, before, earlier)
    ensures chunks.Ok? ==> read == ReadOn(before, SortRows(rows))
  {
    hide Render, RowUnits, Greedy, BoundedLines, SortRows, ReadOn;
    var units;
    units, read := CollectUnits(rows, limits, before);
    if units.Err? {
      return Err(units.error), read;
    }
    BoundedLinesGood(SortRows(rows), limits, before);
    GreedyProperties(units.value, limits);
    var groups := GroupUnits(units.value, limits);
    var done: seq<Chunk> := [];
    for i := 0 to |groups|
      invariant |done| == i && forall j :: 0 <= j < i ==> done[j] == ChunkOf(groups[j])
      invariant i > 0 ==> earlier + i <= limits.maxChunks
    {
      assert Feasible(groups[i], limits);
      var appended := Append(done, earlier, ChunkOf(groups[i]), limits);
      if appended.Err? {
        return Err(appended.error), read;
      }
      done := appended.value;
    }
    assert done == ChunksOf(groups);
    return Ok(done), read;
  }

  // ---------------------------------------------------------------- reading chunks back

  /** One cell text, or fragment, with the row it was read from. */
  datatype Item = Item(row: nat, entry: Entry)

  function Tagged(row: nat, entries: seq<Entry>): (r: seq<Item>)
    ensures |r| == |entries| && forall i :: 0 <= i < |r| ==> r[i] == Item(row, entries[i])
  {
    seq(|entries|, i requires 0 <= i < |entries| => Item(row, entries[i]))
  }

  function ParseToken(token: string): Entry {
    var i := IndexOf(token, '=');
    if i == |token| then Entry(token, "") else Entry(token[..i], token[i + 1..])
  }

  function ParseTokens(row: nat, tokens: seq<string>): (r: seq<Item>)
    ensures |r| == |tokens| && forall i :: 0 <= i < |r| ==> r[i] == Item(row, ParseToken(tokens[i]))
  {
    seq(|tokens|, i requires 0 <= i < |tokens| => Item(row, ParseToken(tokens[i])))
  }

  /** Reads one line: the row number, then tab-separated cells. */
  function ParseLine(line: string): seq<Item> {
    var pieces := Split(line, '\t');
    if |pieces| == 0 || |pieces[0]| < 4 then [] else ParseTokens(ParseDecimal(pieces[0][4..]), pieces[1..])
  }

  function ParseLines(lines: seq<string>): seq<Item> {
    if lines == [] then [] else ParseLine(lines[0]) + ParseLines(lines[1..])
  }

  function ParseChunks(chunks: seq<Chunk>): seq<Item> {
    if chunks == [] then [] else ParseLines(Split(chunks[0].content, '\n')) + ParseChunks(chunks[1..])
  }

  /** What a sheet says: every row in order, every cell in column order, whole or in fragments. */
  function SheetItems(rows: seq<SheetRow>, maximum: nat): seq<Item>
    requires AllPackable(rows, maximum)
  {
    if rows == [] then []
    else
      var last := rows[|rows| - 1];
      SheetItems(rows[..|rows| - 1], maximum) +
      Tagged(last.number, RowEntries(last.number, SortCells(last.cells), maximum))
  }

  /** Coordinates are column letters and a row number; all that matters is that they hold no separator. */
  predicate CleanCoordinate(c: string) {
    '=' !in c && '\t' !in c && '\n' !in c
  }

  predicate CleanEntry(e: Entry) {
    CleanCoordinate(e.coordinate) && '\t' !in e.text && '\n' !in e.text
  }

  ghost predicate CleanLines(lines: seq<Line>) {
    forall i, j :: 0 <= i < |lines| && 0 <= j < |lines[i].entries| ==> CleanEntry(lines[i].entries[j])
  }

  lemma TokenInverse(e: Entry)
    requires CleanEntry(e)
    ensures ParseToken(Token(e)) == e && '\t' !in Token(e) && '\n' !in Token(e)
  {
    var token := Token(e);
    assert token == e.coordinate + ['='] + e.text;
    IndexOfAfter(e.coordinate, '=', e.text);
    assert token[..|e.coordinate|] == e.coordinate && token[|e.coordinate| + 1..] == e.text;
  }

  function Label(row: nat): string {
    "row " + Decimal(row)
  }

  lemma {:induction false} LabelClean(row: nat)
    ensures '\t' !in Label(row) && '\n' !in Label(row) && Label(row)[4..] == Decimal(row) && |Label(row)| >= 4
  {
  }

  lemma RenderIsJoin(row: nat, entries: seq<Entry>)
    requires entries != []
    ensures Render(row, entries) == Join([Label(row)] + Tokens(entries), '\t')
  {
    JoinConcat([Label(row)], Tokens(entries), '\t');
    assert Prefix(row) == Label(row) + ['\t'];
  }

  lemma {:induction false} JoinClean(parts: seq<string>, sep: char, c: char)
    requires c != sep && forall i :: 0 <= i < |parts| ==> c !in parts[i]
    ensures c !in Join(parts, sep)
  {
    if |parts| > 1 {
      JoinClean(parts[1..], sep, c);
    }
  }

  /** Reading a rendered line gives back its row and its entries. */
  lemma LineInverse(row: nat, entries: seq<Entry>)
    requires entries != [] && forall i :: 0 <= i < |entries| ==> CleanEntry(entries[i])
    ensures ParseLine(Render(row, entries)) == Tagged(row, entries) && '\n' !in Render(row, entries)
  {
    hide Label, Render, Token, ParseToken, Join, Split, CleanEntry;
    var pieces := [Label(row)] + Tokens(entries);
    forall i | 0 <= i < |pieces| ensures '\t' !in pieces[i] && '\n' !in pieces[i] {
      LabelClean(row);
      if i > 0 { TokenInverse(entries[i - 1]); }
    }
    RenderIsJoin(row, entries);
    SplitJoin(pieces, '\t');
    JoinClean(pieces, '\t', '\n');
    LabelClean(row);
    DecimalInverse(row);
    assert pieces[1..] == Tokens(entries);
    forall i | 0 <= i < |entries| ensures ParseToken(Tokens(entries)[i]) == entries[i] {
      TokenInverse(entries[i]);
    }
  }

  function LineItems(lines: seq<Line>): seq<Item> {
    if lines == [] then [] else Tagged(lines[0].row, lines[0].entries) + LineItems(lines[1..])
  }

  lemma {:induction false} LineItemsAppend(a: seq<Line>, b: seq<Line>)
    ensures LineItems(a + b) == LineItems(a) + LineItems(b)
  {
    if a == [] {
      assert a + b == b;
    } else {
      assert (a + b)[1..] == a[1..] + b;
      LineItemsAppend(a[1..], b);
    }
  }

  lemma {:induction false} ParseLinesAppend(a: seq<string>, b: seq<string>)
    ensures ParseLines(a + b) == ParseLines(a) + ParseLines(b)
  {
    hide ParseLine;
    if a == [] {
      assert a + b == b;
    } else {
      assert (a + b)[1..] == a[1..] + b;
      ParseLinesAppend(a[1..], b);
    }
  }

  lemma {:induction false} UnitsInverse(lines: seq<Line>, maximum: nat)
    requires GoodLines(lines, maximum) && CleanLines(lines)
    ensures ParseLines(Contents(UnitsOf(lines))) == LineItems(lines)
    ensures forall i :: 0 <= i < |lines| ==> '\n' !in UnitsOf(lines)[i].content
  {
    hide ParseLine, Render, CleanEntry;
    if lines != [] {
      LineInverse(lines[0].row, lines[0].entries);
      assert forall i, j :: 0 <= i < |lines[1..]| && 0 <= j < |lines[1..][i].entries| ==>
               lines[1..][i].entries[j] == lines[i + 1].entries[j];
      UnitsInverse(lines[1..], maximum);
      var contents := Contents(UnitsOf(lines));
      assert contents[1..] == Contents(UnitsOf(lines[1..]));
      assert contents[0] == Render(lines[0].row, lines[0].entries);
      forall i | 0 <= i < |lines| ensures '\n' !in UnitsOf(lines)[i].content {
        if i > 0 { assert UnitsOf(lines)[i] == UnitsOf(lines[1..])[i - 1]; }
      }
    }
  }

  /** Splitting every chunk into lines gives back the units, whatever the grouping. */
  lemma {:induction false} ChunksInverse(groups: seq<seq<Unit>>)
    requires forall i :: 0 <= i < |groups| ==> groups[i] != []
    requires forall i, j :: 0 <= i < |groups| && 0 <= j < |groups[i]| ==> '\n' !in groups[i][j].content
    ensures ParseChunks(ChunksOf(groups)) == ParseLines(Contents(Flatten(groups)))
  {
    if groups != [] {
      var rest := groups[1..];
      assert forall i, j :: 0 <= i < |rest| && 0 <= j < |rest[i]| ==> rest[i][j] == groups[i + 1][j];
      ChunksInverse(rest);
      assert ChunksOf(groups)[1..] == ChunksOf(rest);
      hide ParseLine, ParseLines, Join, Split, Contents;
      SplitContents(groups[0]);
      ContentsAppend(groups[0], Flatten(rest));
      ParseLinesAppend(Contents(groups[0]), Contents(Flatten(rest)));
    }
  }

  lemma SplitContents(group: seq<Unit>)
    requires group != [] && forall j :: 0 <= j < |group| ==> '\n' !in group[j].content
    ensures Split(ChunkOf(group).content, '\n') == Contents(group)
  {
    hide Join, Split;
    SplitJoin(Contents(group), '\n');
  }

  lemma ContentsAppend(a: seq<Unit>, b: seq<Unit>)
    ensures Contents(a + b) == Contents(a) + Contents(b)
  {
  }

  lemma {:induction false} InGroup(groups: seq<seq<Unit>>, i: nat, j: nat)
    requires i < |groups| && j < |groups[i]|
    ensures groups[i][j] in Flatten(groups)
  {
    if i > 0 {
      InGroup(groups[1..], i - 1, j);
    }
  }

  /** The entries of a row hold no separators: JSON text has no control characters. */
  lemma CellEntriesClean(row: nat, cell: Cell, maximum: nat)
    requires CleanCoordinate(cell.coordinate) && (Fits(row, cell, maximum) || Available(row, cell, maximum) >= 1)
    ensures forall i :: 0 <= i < |CellEntries(row, cell, maximum)| ==> CleanEntry(CellEntries(row, cell, maximum)[i])
  {
    hide JsonString, BoundedText.Bounded, CleanCoordinate;
    JsonIsPrintable(cell.value);
    if !Fits(row, cell, maximum) {
      BoundedText.BoundedWithin(JsonString(cell.value), Available(row, cell, maximum));
    }
  }

  lemma {:induction false} RowEntriesClean(row: nat, cells: seq<Cell>, maximum: nat)
    requires Packable(row, cells, maximum) && forall i :: 0 <= i < |cells| ==> CleanCoordinate(cells[i].coordinate)
    ensures forall e :: e in RowEntries(row, cells, maximum) ==> CleanEntry(e)
  {
    hide CleanEntry, CellEntries, Fits, Available, CleanCoordinate;
    if cells != [] {
      PackableHead(row, cells, maximum);
      CellEntriesClean(row, cells[0], maximum);
      assert forall i :: 0 <= i < |cells[1..]| ==> cells[1..][i] == cells[i + 1];
      RowEntriesClean(row, cells[1..], maximum);
    }
  }

  lemma {:induction false} LineItemsOfGroups(row: nat, groups: seq<seq<Entry>>)
    ensures LineItems(LinesOf(row, groups)) == Tagged(row, Flatten(groups))
  {
    if groups != [] {
      assert LinesOf(row, groups)[1..] == LinesOf(row, groups[1..]);
      LineItemsOfGroups(row, groups[1..]);
    }
  }

  lemma {:induction false} EntryInFlattened(groups: seq<seq<Entry>>, i: nat, j: nat)
    requires i < |groups| && j < |groups[i]|
    ensures groups[i][j] in Flatten(groups)
  {
    if i > 0 {
      EntryInFlattened(groups[1..], i - 1, j);
    }
  }

  lemma {:induction false} SortedCoordinates(cells: seq<Cell>)
    requires forall i :: 0 <= i < |cells| ==> CleanCoordinate(cells[i].coordinate)
    ensures forall i :: 0 <= i < |SortCells(cells)| ==> CleanCoordinate(SortCells(cells)[i].coordinate)
  {
    hide CleanCoordinate;
    var sorted := SortCells(cells);
    forall i | 0 <= i < |sorted| ensures CleanCoordinate(sorted[i].coordinate) {
      assert sorted[i] in multiset(sorted);
      assert sorted[i] in cells;
    }
  }

  ghost predicate CleanSheet(rows: seq<SheetRow>) {
    forall i, j :: 0 <= i < |rows| && 0 <= j < |rows[i].cells| ==> CleanCoordinate(rows[i].cells[j].coordinate)
  }

  lemma RowLinesClean(row: SheetRow, maximum: nat)
    requires RowUnits(row, maximum).Ok? && forall j :: 0 <= j < |row.cells| ==> CleanCoordinate(row.cells[j].coordinate)
    ensures CleanLines(LinesOf(row.number, RowUnits(row, maximum).value))
  {
    hide CleanEntry, CleanCoordinate, RowUnits, RowEntries, Flatten;
    RowUnitsGood(row, maximum);
    SortedCoordinates(row.cells);
    RowEntriesClean(row.number, SortCells(row.cells), maximum);
    var groups := RowUnits(row, maximum).value;
    forall i, j | 0 <= i < |groups| && 0 <= j < |groups[i]| ensures CleanEntry(groups[i][j]) {
      EntryInFlattened(groups, i, j);
    }
  }

  /** The lines of a sheet hold no separators. */
  lemma {:induction false} SheetLinesClean(rows: seq<SheetRow>, maximum: nat)
    requires SheetLines(rows, maximum).Ok? && CleanSheet(rows)
    ensures CleanLines(SheetLines(rows, maximum).value)
  {
    hide CleanEntry, CleanCoordinate, RowUnits;
    if rows != [] {
      SheetLinesClean(rows[..|rows| - 1], maximum);
      RowLinesClean(rows[|rows| - 1], maximum);
    }
  }

  ghost predicate AllPackable(rows: seq<SheetRow>, maximum: nat) {
    forall i :: 0 <= i < |rows| ==> Packable(rows[i].number, SortCells(rows[i].cells), maximum)
  }

  lemma {:induction false} SheetPackable(rows: seq<SheetRow>, maximum: nat)
    requires SheetLines(rows, maximum).Ok?
    ensures AllPackable(rows, maximum)
  {
    hide RowUnits, Packable, SortCells, Flatten, RowEntries, GoodLines, LinesOf, Numbers;
    if rows != [] {
      var n := |rows| - 1;
      SheetPackable(rows[..n], maximum);
      assert SheetLines(rows[..n], maximum).Ok? && RowUnits(rows[n], maximum).Ok?;
      forall i | 0 <= i < |rows| ensures Packable(rows[i].number, SortCells(rows[i].cells), maximum) {
        if i == n {
          RowUnitsGood(rows[n], maximum);
        } else {
          assert rows[i] == rows[..n][i];
        }
      }
    }
  }

  /** The lines of a sheet carry its items. */
  lemma {:induction false} SheetLinesItems(rows: seq<SheetRow>, maximum: nat)
    requires SheetLines(rows, maximum).Ok? && AllPackable(rows, maximum)
    ensures LineItems(SheetLines(rows, maximum).value) == SheetItems(rows, maximum)
  {
    hide RowUnits, RowEntries, Flatten, Packable, LineItems, Tagged, LinesOf, Numbers;
    if rows == [] {
      NoItems();
    } else {
      var front, last := rows[..|rows| - 1], rows[|rows| - 1];
      SheetLinesItems(front, maximum);
      RowUnitsGood(last, maximum);
      var groups := RowUnits(last, maximum).value;
      LineItemsAppend(SheetLines(front, maximum).value, LinesOf(last.number, groups));
      LineItemsOfGroups(last.number, groups);
    }
  }

  lemma NoItems()
    ensures LineItems([]) == []
  {
  }

  /**
   Reading the chunks of a sheet back gives exactly what the sheet says: every row in order, every cell in column
   order, each with its JSON text or with the ordered fragments of it.
   */
  lemma {:induction false} SheetInverse(rows: seq<SheetRow>, limits: Limits, chunks: seq<Chunk>)
    requires CleanSheet(rows) && SheetLines(rows, limits.maxChars).Ok?
    requires GoodLines(SheetLines(rows, limits.maxChars).value, limits.maxChars)
    requires var groups := Greedy(UnitsOf(SheetLines(rows, limits.maxChars).value), limits);
             (forall i :: 0 <= i < |groups| ==> groups[i] != []) && chunks == ChunksOf(groups)
    ensures AllPackable(rows, limits.maxChars)
    ensures ParseChunks(chunks) == SheetItems(rows, limits.maxChars)
  {
    hide ParseLines, ParseChunks, Greedy, SheetLines, LineItems, Render, CleanEntry, Packable, SheetItems, Feasible;
    SheetPackable(rows, limits.maxChars);
    SheetLinesItems(rows, limits.maxChars);
    SheetLinesClean(rows, limits.maxChars);
    var lines := SheetLines(rows, limits.maxChars).value;
    var units := UnitsOf(lines);
    var groups: seq<seq<Unit>> := Greedy(units, limits);
    UnitsInverse(lines, limits.maxChars);
    GreedyProperties(units, limits);
    forall i: int, j: int | 0 <= i < |groups| && 0 <= j < |groups[i]| ensures '\n' !in groups[i][j].content {
      InGroup(groups, i, j);
    }
    ChunksInverse(groups);
  }

  lemma {:induction false} SortedClean(rows: seq<SheetRow>)
    requires CleanSheet(rows)
    ensures CleanSheet(SortRows(rows))
  {
    var sorted := SortRows(rows);
    forall i, j | 0 <= i < |sorted| && 0 <= j < |sorted[i].cells| ensures CleanCoordinate(sorted[i].cells[j].coordinate) {
      assert sorted[i] in multiset(sorted);
      assert sorted[i] in rows;
    }
  }

  /** Whatever a sheet was chunked into, reading it back gives the sheet, its rows put in order. */
  lemma {:induction false} SheetReadsBack(rows: seq<SheetRow>, limits: Limits, before: Read, earlier: nat)
    requires CleanSheet(rows) && SheetChunks(rows, limits, before, earlier).Ok?
    ensures AllPackable(SortRows(rows), limits.maxChars) && InOrder(SortRows(rows))
    ensures ParseChunks(SheetChunks(rows, limits, before, earlier).value) == SheetItems(SortRows(rows), limits.maxChars)
  {
    hide ParseChunks, Greedy, SheetLines, BoundedLines, SortRows, Render, SheetItems, CleanSheet;
    SortRowsOrdered(rows);
    SortedClean(rows);
    BoundedLinesGood(SortRows(rows), limits, before);
    SheetLinesGood(SortRows(rows), limits.maxChars);
    GreedyProperties(UnitsOf(SheetLines(SortRows(rows), limits.maxChars).value), limits);
    SheetInverse(SortRows(rows), limits, SheetChunks(rows, limits, before, earlier).value);
  }

  function Texts(entries: seq<Entry>): (r: seq<string>)
    ensures |r| == |entries| && forall i :: 0 <= i < |r| ==> r[i] == entries[i].text
  {
    seq(|entries|, i requires 0 <= i < |entries| => entries[i].text)
  }

  /**
   Every cell is covered under its own coordinate. A cell that was not fragmented is read back with its exact value;
   the fragments of any other hold the non-whitespace characters of its JSON text, in order.
   */
  lemma CellCovered(row: nat, cell: Cell, maximum: nat)
    requires Fits(row, cell, maximum) || Available(row, cell, maximum) >= 1
    ensures var entries := CellEntries(row, cell, maximum);
            && entries != [] && (forall i :: 0 <= i < |entries| ==> entries[i].coordinate == cell.coordinate)
            && (Fits(row, cell, maximum) ==> |entries| == 1 && ParseJsonString(entries[0].text) == Some(cell.value))
            && T.Ink(Flatten(Texts(entries))) == T.Ink(JsonString(cell.value))
  {
    hide JsonString, T.Ink, BoundedText.Bounded;
    var json, entries := JsonString(cell.value), CellEntries(row, cell, maximum);
    if Fits(row, cell, maximum) {
      JsonInverse(cell.value);
      assert Texts(entries) == [json];
      assert Flatten([json]) == json + Flatten([]) == json;
    } else {
      FragmentsFit(row, cell, maximum);
      assert Texts(entries) == BoundedText.Bounded(json, Available(row, cell, maximum));
      BoundedText.BoundedProperties(json, Available(row, cell, maximum));
    }
  }
}
