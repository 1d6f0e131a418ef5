/**
 Chunking whole documents: the sheets of a spreadsheet and the pages of a PDF, with the limits that span them.
 */
module Chunking {
  import opened Wrappers
  import opened Sequences
  import opened Rendering
  import opened SheetUnits
  import opened Grouping
  import opened Spreadsheet
  import opened PdfText
  import B = BoundedText
  import T = Text

  // ---------------------------------------------------------------- spreadsheets

  datatype Sheet = Sheet(index: nat, name: string, rows: seq<SheetRow>)

  /** A chunk with its place in the document. */
  datatype Located = Located(ordinal: nat, sheet: string, chunk: Chunk)

  datatype Progress = Progress(chunks: seq<Located>, read: Read)

  /** Comparison of strings by code points. */
  predicate NameLeq(a: string, b: string) {
    a == "" || (b != "" && (a[0] < b[0] || (a[0] == b[0] && NameLeq(a[1..], b[1..]))))
  }

  predicate SheetLeq(a: Sheet, b: Sheet) {
    a.index < b.index || (a.index == b.index && NameLeq(a.name, b.name))
  }

  function InsertSheet(sheet: Sheet, sorted: seq<Sheet>): (r: seq<Sheet>)
    ensures multiset(r) == multiset(sorted) + multiset{sheet}
  {
    if sorted == [] || SheetLeq(sheet, sorted[0]) then [sheet] + sorted
    else
      assert sorted == [sorted[0]] + sorted[1..];
      [sorted[0]] + InsertSheet(sheet, sorted[1..])
  }

  function SortSheets(sheets: seq<Sheet>): (r: seq<Sheet>)
    ensures multiset(r) == multiset(sheets)
  {
    if sheets == [] then []
    else
      assert sheets == [sheets[0]] + sheets[1..];
      InsertSheet(sheets[0], SortSheets(sheets[1..]))
  }

  lemma {:induction false} NameLeqTotal(a: string, b: string)
    ensures NameLeq(a, b) || NameLeq(b, a)
  {
    if a != "" && b != "" && a[0] == b[0] {
      NameLeqTotal(a[1..], b[1..]);
    }
  }

  /** Every sheet comes no later than the next one. */
  predicate SheetsInOrder(sheets: seq<Sheet>) {
    forall i :: 0 <= i < |sheets| - 1 ==> SheetLeq(sheets[i], sheets[i + 1])
  }

  lemma {:induction false} InsertSheetOrdered(sheet: Sheet, sorted: seq<Sheet>)
    requires SheetsInOrder(sorted)
    ensures SheetsInOrder(InsertSheet(sheet, sorted))
    ensures var r := InsertSheet(sheet, sorted); r != [] && (r[0] == sheet || (sorted != [] && r[0] == sorted[0]))
  {
    hide SheetLeq;
    if sorted != [] && !SheetLeq(sheet, sorted[0]) {
      assert forall i :: 0 <= i < |sorted[1..]| ==> sorted[1..][i] == sorted[i + 1];
      InsertSheetOrdered(sheet, sorted[1..]);
      SheetLeqTotal(sheet, sorted[0]);
      var rest := InsertSheet(sheet, sorted[1..]);
      assert SheetLeq(sorted[0], rest[0]) by {
        if rest[0] != sheet {
          assert SheetLeq(sorted[0], sorted[0 + 1]);
        }
      }
    }
  }

  lemma SheetLeqTotal(a: Sheet, b: Sheet)
    ensures SheetLeq(a, b) || SheetLeq(b, a)
  {
    NameLeqTotal(a.name, b.name);
  }

  /** Sheets are taken in the order of their index, then of their name. */
  lemma {:induction false} SortSheetsOrdered(sheets: seq<Sheet>)
    ensures SheetsInOrder(SortSheets(sheets))
  {
    if sheets != [] {
      SortSheetsOrdered(sheets[1..]);
      InsertSheetOrdered(sheets[0], SortSheets(sheets[1..]));
    }
  }

  function Identities(sheets: seq<Sheet>): set<(nat, string)> {
    set i | 0 <= i < |sheets| :: (sheets[i].index, sheets[i].name)
  }

  function Locate(name: string, chunks: seq<Chunk>, from: nat): (r: seq<Located>)
    ensures |r| == |chunks| && forall i :: 0 <= i < |r| ==> r[i] == Located(from + i, name, chunks[i])
  {
    seq(|chunks|, i requires 0 <= i < |chunks| => Located(from + i, name, chunks[i]))
  }

  /** The chunks of sheets already in order, or the first error. */
  function SheetsChunks(sheets: seq<Sheet>, limits: Limits): Result<Progress, ChunkingError> {
    if sheets == [] then Ok(Progress([], Read(0, 0)))
    else
      var front, last := SheetsChunks(sheets[..|sheets| - 1], limits), sheets[|sheets| - 1];
      if front.Err? then front
      else if (last.index, last.name) in Identities(sheets[..|sheets| - 1]) then Err(InvalidSource)
      else
        var made := front.value;
        match SheetChunks(last.rows, limits, made.read, |made.chunks|)
        case Err(e) => Err(e)
        case Ok(chunks) =>
          Ok(Progress(made.chunks + Locate(last.name, chunks, |made.chunks|), ReadOn(made.read, SortRows(last.rows))))
  }

  function SpreadsheetChunks(sheets: seq<Sheet>, pages: nat, limits: Limits): Result<seq<Located>, ChunkingError> {
    if pages > 0 || |sheets| > limits.maxSheets then Err(InvalidSource)
    else match SheetsChunks(SortSheets(sheets), limits)
      case Err(e) => Err(e)
      case Ok(made) => Ok(made.chunks)
  }

  method ChunkSpreadsheet(sheets: seq<Sheet>, pages: nat, limits: Limits) returns (chunks: Result<seq<Located>, ChunkingError>)
    ensures chunks == SpreadsheetChunks(sheets, pages, limits)
  {
    hide SheetChunks, SortSheets, Identities, ReadOn, SheetsChunks, SortRows;
    if pages > 0 || |sheets| > limits.maxSheets {
      return Err(InvalidSource);
    }
    var sorted := SortSheets(sheets);
    var seen: set<(nat, string)> := {};
    var made: seq<Located> := [];
    var read := Read(0, 0);
    NothingSeen(sorted, limits);
    for i := 0 to |sorted|
      invariant seen == Identities(sorted[..i])
      invariant SheetsChunks(sorted[..i], limits) == Ok(Progress(made, read))
    {
      SheetsChunksStep(sorted, limits, i);
      var sheet := sorted[i];
      if (sheet.index, sheet.name) in seen {
        SheetsErrorStays(sorted, limits, i + 1);
        return Err(InvalidSource);
      }
      SeenStep(sorted, i);
      seen := seen + {(sheet.index, sheet.name)};
      var part, read' := ChunkSheet(sheet.rows, limits, read, |made|);
      if part.Err? {
        SheetsErrorStays(sorted, limits, i + 1);
        return Err(part.error);
      }
      made, read := made + Locate(sheet.name, part.value, |made|), read';
    }
    assert sorted[..|sorted|] == sorted;
    return Ok(made);
  }

  lemma {:induction false} NothingSeen(sheets: seq<Sheet>, limits: Limits)
    ensures Identities(sheets[..0]) == {} && SheetsChunks(sheets[..0], limits) == Ok(Progress([], Read(0, 0)))
  {
  }

  lemma {:induction false} SheetsChunksStep(sheets: seq<Sheet>, limits: Limits, i: nat)
    requires i < |sheets| && SheetsChunks(sheets[..i], limits).Ok?
    ensures var made, sheet := SheetsChunks(sheets[..i], limits).value, sheets[i];
            SheetsChunks(sheets[..i + 1], limits) ==
            if (sheet.index, sheet.name) in Identities(sheets[..i]) then Err(InvalidSource)
            else match SheetChunks(sheet.rows, limits, made.read, |made.chunks|)
              case Err(e) => Err(e)
              case Ok(chunks) =>
                Ok(Progress(made.chunks + Locate(sheet.name, chunks, |made.chunks|), ReadOn(made.read, SortRows(sheet.rows))))
  {
    hide SheetChunks, Identities, SortRows, ReadOn;
    assert sheets[..i + 1][..i] == sheets[..i];
  }

  lemma SeenStep(sheets: seq<Sheet>, i: nat)
    requires i < |sheets|
    ensures Identities(sheets[..i + 1]) == Identities(sheets[..i]) + {(sheets[i].index, sheets[i].name)}
  {
    var upTo, before := sheets[..i + 1], sheets[..i];
    forall x | x in Identities(upTo) ensures x in Identities(before) + {(sheets[i].index, sheets[i].name)} {
      var k :| 0 <= k < i + 1 && (upTo[k].index, upTo[k].name) == x;
      assert k < i ==> before[k] == upTo[k];
    }
    forall x | x in Identities(before) ensures x in Identities(upTo) {
      var k :| 0 <= k < i && (before[k].index, before[k].name) == x;
      assert upTo[k] == before[k];
    }
    assert (upTo[i].index, upTo[i].name) in Identities(upTo);
  }

  lemma {:induction false} SheetsErrorStays(sheets: seq<Sheet>, limits: Limits, n: nat)
    requires n <= |sheets| && SheetsChunks(sheets[..n], limits).Err?
    ensures SheetsChunks(sheets, limits) == SheetsChunks(sheets[..n], limits)
    decreases |sheets| - n
  {
    hide SheetChunks, Identities;
    if n == |sheets| {
      assert sheets[..n] == sheets;
    } else {
      assert sheets[..n + 1][..n] == sheets[..n];
      SheetsErrorStays(sheets, limits, n + 1);
    }
  }

  // ---------------------------------------------------------------- what the chunks of a spreadsheet hold

  /** Numbered from zero, as many as allowed, each within the length limit. */
  ghost predicate WellNumbered(chunks: seq<Located>, limits: Limits) {
    && |chunks| <= limits.maxChunks
    && forall i :: 0 <= i < |chunks| ==> chunks[i].ordinal == i && |chunks[i].chunk.content| <= limits.maxChars
  }

  lemma {:induction false} SheetChunksBounded(rows: seq<SheetRow>, limits: Limits, before: Read, earlier: nat)
    requires SheetChunks(rows, limits, before, earlier).Ok?
    ensures var chunks := SheetChunks(rows, limits, before, earlier).value;
            && (chunks != [] ==> earlier + |chunks| <= limits.maxChunks)
            && forall i :: 0 <= i < |chunks| ==> |chunks[i].content| <= limits.maxChars
    ensures Within(before, limits) ==> Within(ReadOn(before, SortRows(rows)), limits)
  {
    hide BoundedLines, Greedy, SortRows, UnitOf;
    BoundedLinesGood(SortRows(rows), limits, before);
    var units := UnitsOf(BoundedLines(SortRows(rows), limits, before).value);
    GreedyProperties(units, limits);
    var groups := Greedy(units, limits);
    forall i | 0 <= i < |groups| ensures |ChunkOf(groups[i]).content| <= limits.maxChars {
      assert Feasible(groups[i], limits);
    }
    if rows == [] {
      NoRowsRead(before);
    } else {
      assert rows[0] in multiset(SortRows(rows));
    }
  }

  /** Chunks are numbered 0, 1, ... up to the limit, and what was read stayed within the limits on rows and cells. */
  lemma {:induction false} SheetsChunksBounded(sheets: seq<Sheet>, limits: Limits)
    requires SheetsChunks(sheets, limits).Ok?
    ensures WellNumbered(SheetsChunks(sheets, limits).value.chunks, limits)
    ensures Within(SheetsChunks(sheets, limits).value.read, limits)
  {
    hide SheetChunks, Identities, SortRows, ReadOn, Within, WellNumbered, Locate;
    if sheets == [] {
      NothingNumbered(limits);
      NothingRead(limits);
    } else {
      var front, last := sheets[..|sheets| - 1], sheets[|sheets| - 1];
      SheetsChunksBounded(front, limits);
      var made := SheetsChunks(front, limits).value;
      SheetChunksBounded(last.rows, limits, made.read, |made.chunks|);
      NumberedOn(made.chunks, last.name, SheetChunks(last.rows, limits, made.read, |made.chunks|).value, limits);
    }
  }

  lemma NumberedOn(made: seq<Located>, name: string, chunks: seq<Chunk>, limits: Limits)
    requires WellNumbered(made, limits) && (chunks != [] ==> |made| + |chunks| <= limits.maxChunks)
    requires forall i :: 0 <= i < |chunks| ==> |chunks[i].content| <= limits.maxChars
    ensures WellNumbered(made + Locate(name, chunks, |made|), limits)
  {
  }

  lemma NothingRead(limits: Limits)
    ensures Within(Read(0, 0), limits)
  {
  }

  lemma NothingNumbered(limits: Limits)
    ensures WellNumbered([], limits)
  {
  }

  lemma NoRowsRead(before: Read)
    ensures ReadOn(before, SortRows([])) == before
  {
  }

  /** One item with the sheet it was read from. */
  datatype Cited = Cited(sheet: string, item: Item)

  function Cite(sheet: string, items: seq<Item>): (r: seq<Cited>)
    ensures |r| == |items| && forall i :: 0 <= i < |r| ==> r[i] == Cited(sheet, items[i])
  {
    seq(|items|, i requires 0 <= i < |items| => Cited(sheet, items[i]))
  }

  /** Reads the chunks of a document back, one after the other. */
  function ParseDocument(chunks: seq<Located>): seq<Cited> {
    if chunks == [] then []
    else
      var last := chunks[|chunks| - 1];
      ParseDocument(chunks[..|chunks| - 1]) + Cite(last.sheet, ParseChunks([last.chunk]))
  }

  /** What a spreadsheet says: sheet by sheet, row by row, cell by cell. */
  function DocumentItems(sheets: seq<Sheet>, maximum: nat): seq<Cited>
    requires forall i :: 0 <= i < |sheets| ==> AllPackable(SortRows(sheets[i].rows), maximum)
  {
    if sheets == [] then []
    else
      var last := sheets[|sheets| - 1];
      DocumentItems(sheets[..|sheets| - 1], maximum) + Cite(last.name, SheetItems(SortRows(last.rows), maximum))
  }

  lemma {:induction false} ParseChunksAppend(a: seq<Chunk>, b: seq<Chunk>)
    ensures ParseChunks(a + b) == ParseChunks(a) + ParseChunks(b)
  {
    hide ParseLines, Split;
    if a == [] {
      assert a + b == b;
    } else {
      assert (a + b)[1..] == a[1..] + b;
      ParseChunksAppend(a[1..], b);
    }
  }

  lemma CiteAppend(sheet: string, a: seq<Item>, b: seq<Item>)
    ensures Cite(sheet, a + b) == Cite(sheet, a) + Cite(sheet, b)
  {
  }

  lemma NothingParsed()
    ensures ParseChunks([]) == []
  {
  }

  /** Reading the located chunks of one sheet adds what its chunks say. */
  lemma {:induction false} ParseLocated(made: seq<Located>, name: string, chunks: seq<Chunk>)
    ensures ParseDocument(made + Locate(name, chunks, |made|)) == ParseDocument(made) + Cite(name, ParseChunks(chunks))
    decreases |chunks|
  {
    hide ParseChunks;
    var all := made + Locate(name, chunks, |made|);
    if chunks == [] {
      NothingParsed();
      assert all == made;
    } else {
      var front, last := chunks[..|chunks| - 1], chunks[|chunks| - 1];
      ParseLocated(made, name, front);
      assert all[..|all| - 1] == made + Locate(name, front, |made|);
      assert chunks == front + [last];
      ParseChunksAppend(front, [last]);
      CiteAppend(name, ParseChunks(front), ParseChunks([last]));
    }
  }

  /** Reading all chunks of a document back gives every sheet, row, coordinate and value text, in order. */
  lemma {:induction false} DocumentReadsBack(sheets: seq<Sheet>, limits: Limits)
    requires SheetsChunks(sheets, limits).Ok? && forall i :: 0 <= i < |sheets| ==> CleanSheet(sheets[i].rows)
    ensures forall i :: 0 <= i < |sheets| ==> AllPackable(SortRows(sheets[i].rows), limits.maxChars)
    ensures ParseDocument(SheetsChunks(sheets, limits).value.chunks) == DocumentItems(sheets, limits.maxChars)
  {
    hide SheetChunks, Identities, SortRows, CleanSheet, AllPackable, SheetItems, ReadOn, ParseChunks;
    if sheets != [] {
      var front, last := sheets[..|sheets| - 1], sheets[|sheets| - 1];
      forall i | 0 <= i < |front| ensures CleanSheet(front[i].rows) {
        assert front[i] == sheets[i];
      }
      DocumentReadsBack(front, limits);
      var made := SheetsChunks(front, limits).value;
      SheetReadsBack(last.rows, limits, made.read, |made.chunks|);
      ParseLocated(made.chunks, last.name, SheetChunks(last.rows, limits, made.read, |made.chunks|).value);
      forall i | 0 <= i < |sheets| ensures AllPackable(SortRows(sheets[i].rows), limits.maxChars) {
        assert i < |front| ==> front[i] == sheets[i];
      }
    }
  }

  // ---------------------------------------------------------------- PDF documents

  /** A page with its text after normalization. */
  datatype Page = Page(number: nat, text: string)

  datatype PageChunk = PageChunk(ordinal: nat, page: nat, content: string)

  function InsertPage(page: Page, sorted: seq<Page>): (r: seq<Page>)
    ensures multiset(r) == multiset(sorted) + multiset{page}
  {
    if sorted == [] || page.number <= sorted[0].number then [page] + sorted
    else
      assert sorted == [sorted[0]] + sorted[1..];
      [sorted[0]] + InsertPage(page, sorted[1..])
  }

  function SortPages(pages: seq<Page>): (r: seq<Page>)
    ensures multiset(r) == multiset(pages)
  {
    if pages == [] then []
    else
      assert pages == [pages[0]] + pages[1..];
      InsertPage(pages[0], SortPages(pages[1..]))
  }

  predicate PagesInOrder(pages: seq<Page>) {
    forall i :: 0 <= i < |pages| - 1 ==> pages[i].number <= pages[i + 1].number
  }

  lemma {:induction false} InsertPageOrdered(page: Page, sorted: seq<Page>)
    requires PagesInOrder(sorted)
    ensures PagesInOrder(InsertPage(page, sorted))
    ensures var r := InsertPage(page, sorted); r != [] && (r[0] == page || (sorted != [] && r[0] == sorted[0]))
  {
    if sorted != [] && page.number > sorted[0].number {
      assert forall i :: 0 <= i < |sorted[1..]| ==> sorted[1..][i] == sorted[i + 1];
      InsertPageOrdered(page, sorted[1..]);
    }
  }

  /** Pages are taken in the order of their numbers. */
  lemma {:induction false} SortPagesOrdered(pages: seq<Page>)
    ensures PagesInOrder(SortPages(pages))
  {
    if pages != [] {
      SortPagesOrdered(pages[1..]);
      InsertPageOrdered(pages[0], SortPages(pages[1..]));
    }
  }

  function PageNumbers(pages: seq<Page>): set<nat> {
    set i | 0 <= i < |pages| :: pages[i].number
  }

  function OnPage(page: nat, contents: seq<string>, from: nat): (r: seq<PageChunk>)
    ensures |r| == |contents| && forall i :: 0 <= i < |r| ==> r[i] == PageChunk(from + i, page, contents[i])
  {
    seq(|contents|, i requires 0 <= i < |contents| => PageChunk(from + i, page, contents[i]))
  }

  /** The chunks of pages already in order, or the first error. */
  function PagesChunks(pages: seq<Page>, heading: string -> bool, limits: Limits): Result<seq<PageChunk>, ChunkingError> {
    if pages == [] then Ok([])
    else
      var front, last := PagesChunks(pages[..|pages| - 1], heading, limits), pages[|pages| - 1];
      if front.Err? then front
      else if last.number in PageNumbers(pages[..|pages| - 1]) then Err(InvalidSource)
      else
        var parts := PageParts(Sections(last.text, heading), limits.maxChars);
        if parts != [] && |front.value| + |parts| > limits.maxChunks then Err(ResultLimitExceeded)
        else Ok(front.value + OnPage(last.number, parts, |front.value|))
  }

  function PdfChunks(pages: seq<Page>, sheets: nat, heading: string -> bool, limits: Limits): Result<seq<PageChunk>, ChunkingError> {
    if sheets > 0 || |pages| > limits.maxPages then Err(InvalidSource)
    else PagesChunks(SortPages(pages), heading, limits)
  }

  /** Appends the chunks of one page; the length check never fires. */
  method AppendPage(made: seq<PageChunk>, page: nat, contents: seq<string>, limits: Limits) returns (chunks: Result<seq<PageChunk>, ChunkingError>)
    requires B.WellCut(contents, limits.maxChars)
    ensures chunks == if contents != [] && |made| + |contents| > limits.maxChunks then Err(ResultLimitExceeded)
                      else Ok(made + OnPage(page, contents, |made|))
  {
    var all := made;
    for j := 0 to |contents|
      invariant all == made + OnPage(page, contents[..j], |made|)
      invariant j > 0 ==> |all| <= limits.maxChunks
    {
      if |contents[j]| > limits.maxChars || |all| >= limits.maxChunks {
        return Err(ResultLimitExceeded);
      }
      all := all + [PageChunk(|all|, page, contents[j])];
    }
    assert contents[..|contents|] == contents;
    return Ok(all);
  }

  method ChunkPdf(pages: seq<Page>, sheets: nat, heading: string -> bool, limits: Limits) returns (chunks: Result<seq<PageChunk>, ChunkingError>)
    ensures chunks == PdfChunks(pages, sheets, heading, limits)
  {
    hide SortPages, PageNumbers, Sections, PageParts, PagesChunks, OnPage, B.WellCut, T.Ink;
    if sheets > 0 || |pages| > limits.maxPages {
      return Err(InvalidSource);
    }
    var sorted := SortPages(pages);
    var seen: set<nat> := {};
    var made: seq<PageChunk> := [];
    NoPages(sorted, heading, limits);
    for i := 0 to |sorted|
      invariant seen == PageNumbers(sorted[..i])
      invariant PagesChunks(sorted[..i], heading, limits) == Ok(made)
    {
      PagesChunksStep(sorted, heading, limits, i);
      var page := sorted[i];
      if page.number in seen {
        PagesErrorStays(sorted, heading, limits, i + 1);
        return Err(InvalidSource);
      }
      PagesStep(sorted, i);
      seen := seen + {page.number};
      var contents := ChunkPage(page.text, heading, limits.maxChars);
      var extended := AppendPage(made, page.number, contents, limits);
      if extended.Err? {
        PagesErrorStays(sorted, heading, limits, i + 1);
        return extended;
      }
      made := extended.value;
    }
    assert sorted[..|sorted|] == sorted;
    return Ok(made);
  }

  lemma {:induction false} NoPages(pages: seq<Page>, heading: string -> bool, limits: Limits)
    ensures PageNumbers(pages[..0]) == {} && PagesChunks(pages[..0], heading, limits) == Ok([])
  {
  }

  lemma {:induction false} PagesChunksStep(pages: seq<Page>, heading: string -> bool, limits: Limits, i: nat)
    requires i < |pages| && PagesChunks(pages[..i], heading, limits).Ok?
    ensures var made, parts := PagesChunks(pages[..i], heading, limits).value, PageParts(Sections(pages[i].text, heading), limits.maxChars);
            PagesChunks(pages[..i + 1], heading, limits) ==
            if pages[i].number in PageNumbers(pages[..i]) then Err(InvalidSource)
            else if parts != [] && |made| + |parts| > limits.maxChunks then Err(ResultLimitExceeded)
            else Ok(made + OnPage(pages[i].number, parts, |made|))
  {
    hide PageNumbers, Sections, PageParts;
    assert pages[..i + 1][..i] == pages[..i];
  }

  lemma PagesStep(pages: seq<Page>, i: nat)
    requires i < |pages|
    ensures PageNumbers(pages[..i + 1]) == PageNumbers(pages[..i]) + {pages[i].number}
  {
    var upTo, before := pages[..i + 1], pages[..i];
    forall x | x in PageNumbers(upTo) ensures x in PageNumbers(before) + {pages[i].number} {
      var k :| 0 <= k < i + 1 && upTo[k].number == x;
      assert k < i ==> before[k] == upTo[k];
    }
    forall x | x in PageNumbers(before) ensures x in PageNumbers(upTo) {
      var k :| 0 <= k < i && before[k].number == x;
      assert upTo[k] == before[k];
    }
    assert upTo[i].number in PageNumbers(upTo);
  }

  lemma {:induction false} PagesErrorStays(pages: seq<Page>, heading: string -> bool, limits: Limits, n: nat)
    requires n <= |pages| && PagesChunks(pages[..n], heading, limits).Err?
    ensures PagesChunks(pages, heading, limits) == PagesChunks(pages[..n], heading, limits)
    decreases |pages| - n
  {
    hide PageNumbers, Sections, PageParts;
    if n == |pages| {
      assert pages[..n] == pages;
    } else {
      assert pages[..n + 1][..n] == pages[..n];
      PagesErrorStays(pages, heading, limits, n + 1);
    }
  }

  function ContentsOf(chunks: seq<PageChunk>): (r: seq<string>)
    ensures |r| == |chunks| && forall i :: 0 <= i < |r| ==> r[i] == chunks[i].content
  {
    seq(|chunks|, i requires 0 <= i < |chunks| => chunks[i].content)
  }

  function TextsOf(pages: seq<Page>): (r: seq<string>)
    ensures |r| == |pages| && forall i :: 0 <= i < |r| ==> r[i] == pages[i].text
  {
    seq(|pages|, i requires 0 <= i < |pages| => pages[i].text)
  }

  /** The chunks of all pages fit the limit and hold the non-whitespace characters of the document, in page order. */
  lemma {:induction false} PdfKeepsInk(pages: seq<Page>, heading: string -> bool, limits: Limits)
    requires PagesChunks(pages, heading, limits).Ok?
    ensures var chunks := PagesChunks(pages, heading, limits).value;
            && |chunks| <= limits.maxChunks && (forall i :: 0 <= i < |chunks| ==> chunks[i].ordinal == i)
            && B.WellCut(ContentsOf(chunks), limits.maxChars)
            && T.Ink(Flatten(ContentsOf(chunks))) == T.Ink(Flatten(TextsOf(pages)))
  {
    hide T.Ink, Flatten, B.WellCut, Sections, PageParts, PageNumbers;
    if pages == [] {
      assert ContentsOf([]) == [] == TextsOf([]);
      NothingCut(limits.maxChars);
    } else {
      var front, last := pages[..|pages| - 1], pages[|pages| - 1];
      PdfKeepsInk(front, heading, limits);
      var made := PagesChunks(front, heading, limits).value;
      var parts := PageParts(Sections(last.text, heading), limits.maxChars);
      PageKeepsInk(last.text, heading, limits.maxChars);
      assert ContentsOf(made + OnPage(last.number, parts, |made|)) == ContentsOf(made) + parts;
      WellCutConcat(ContentsOf(made), parts, limits.maxChars);
      FlattenConcat(ContentsOf(made), parts);
      T.InkConcat(Flatten(ContentsOf(made)), Flatten(parts));
      assert TextsOf(pages) == TextsOf(front) + [last.text];
      InkSnoc(TextsOf(front), last.text);
    }
  }

  lemma NothingCut(maximum: nat)
    ensures B.WellCut([], maximum)
  {
  }
}
