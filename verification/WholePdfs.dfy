/**
 Exactly which PDF documents are chunked, and what the chunks of a whole one hold.
 */
module WholePdfs {
  import opened Wrappers
  import opened Sequences
  import opened SheetUnits
  import opened Grouping
  import opened Chunking
  import PdfText
  import B = BoundedText
  import T = Text

  function PageOf(page: Page): nat {
    page.number
  }

  /** How many chunks a page is worth. */
  function PartsIn(heading: string -> bool, limits: Limits): Page -> nat {
    (page: Page) => |PdfText.PageParts(PdfText.Sections(page.text, heading), limits.maxChars)|
  }

  lemma {:induction false} PageSnoc(pages: seq<Page>)
    requires pages != []
    ensures var front, last := pages[..|pages| - 1], pages[|pages| - 1];
            DistinctBy(pages, PageOf) <==> DistinctBy(front, PageOf) && last.number !in PageNumbers(front)
  {
    var n := |pages| - 1;
    var front, last := pages[..n], pages[n];
    if DistinctBy(pages, PageOf) {
      forall i, j | 0 <= i < j < n ensures PageOf(front[i]) != PageOf(front[j]) {
        assert PageOf(pages[i]) != PageOf(pages[j]);
      }
      forall i | 0 <= i < n ensures front[i].number != last.number {
        assert PageOf(pages[i]) != PageOf(pages[n]);
      }
    }
    if DistinctBy(front, PageOf) && last.number !in PageNumbers(front) {
      forall i, j | 0 <= i < j < |pages| ensures PageOf(pages[i]) != PageOf(pages[j]) {
        assert front[i].number in PageNumbers(front);
        if j < n {
          assert PageOf(front[i]) != PageOf(front[j]);
        }
      }
    }
  }

  /** Pages in order are chunked if and only if no number is there twice and the chunks are not too many. */
  lemma {:induction false} PagesChunksOk(pages: seq<Page>, heading: string -> bool, limits: Limits)
    ensures var chunks := PagesChunks(pages, heading, limits);
            && (chunks.Ok? <==> DistinctBy(pages, PageOf) && Total(pages, PartsIn(heading, limits)) <= limits.maxChunks)
            && (chunks.Ok? ==> |chunks.value| == Total(pages, PartsIn(heading, limits)))
            && (chunks == Err(InvalidSource) ==> !DistinctBy(pages, PageOf))
            && (chunks == Err(ResultLimitExceeded) ==> Total(pages, PartsIn(heading, limits)) > limits.maxChunks)
            && chunks != Err(SourceLimitExceeded)
  {
    hide PageNumbers, PdfText.PageParts, PdfText.Sections, DistinctBy;
    if pages == [] {
      NoPagesDistinct();
    } else {
      PagesChunksOk(pages[..|pages| - 1], heading, limits);
      PageSnoc(pages);
    }
  }

  lemma NoPagesDistinct()
    ensures DistinctBy([], PageOf)
  {
  }

  /** A PDF is chunked if and only if it has no sheets, not too many pages, no page twice and not too many chunks. */
  lemma {:induction false} PdfExactly(pages: seq<Page>, sheets: nat, heading: string -> bool, limits: Limits)
    ensures var chunks, count := PdfChunks(pages, sheets, heading, limits), Total(pages, PartsIn(heading, limits));
            && (chunks.Ok? <==> sheets == 0 && |pages| <= limits.maxPages && DistinctBy(pages, PageOf) && count <= limits.maxChunks)
            && (chunks.Ok? ==> |chunks.value| == count)
            && (chunks == Err(InvalidSource) ==> sheets > 0 || |pages| > limits.maxPages || !DistinctBy(pages, PageOf))
            && (chunks == Err(ResultLimitExceeded) ==> count > limits.maxChunks)
            && chunks != Err(SourceLimitExceeded)
  {
    hide PagesChunks, SortPages, PartsIn, DistinctBy, Total;
    var sorted := SortPages(pages);
    PagesChunksOk(sorted, heading, limits);
    TotalPermutation(sorted, pages, PartsIn(heading, limits));
    if DistinctBy(sorted, PageOf) {
      DistinctPermutation(sorted, pages, PageOf);
    }
    if DistinctBy(pages, PageOf) {
      DistinctPermutation(pages, sorted, PageOf);
    }
  }

  lemma {:induction false} PageOrderReaches(pages: seq<Page>, i: nat, j: nat)
    requires PagesInOrder(pages) && i < j < |pages|
    ensures pages[i].number <= pages[j].number
    decreases j - i
  {
    if i + 1 < j {
      PageOrderReaches(pages, i, j - 1);
    }
  }

  lemma {:induction false} PagesOneOrder(pages: seq<Page>, s: seq<Page>)
    requires multiset(s) == multiset(pages) && PagesInOrder(s) && DistinctBy(pages, PageOf)
    ensures SortPages(pages) == s
  {
    hide SortPages, PagesInOrder;
    var sorted := SortPages(pages);
    SortPagesOrdered(pages);
    DistinctPermutation(pages, sorted, PageOf);
    forall i, j | 0 <= i < j < |sorted| ensures PageOf(sorted[i]) <= PageOf(sorted[j]) {
      PageOrderReaches(sorted, i, j);
    }
    forall i, j | 0 <= i < j < |s| ensures PageOf(s[i]) <= PageOf(s[j]) {
      PageOrderReaches(s, i, j);
    }
    SameOrder(sorted, s, (x: Page, y: Page) => PageOf(x) <= PageOf(y));
  }

  /** The contents of the chunks of one page, in order. */
  function OfPage(chunks: seq<PageChunk>, page: nat): seq<string> {
    if chunks == [] then []
    else
      OfPage(chunks[..|chunks| - 1], page) + (if chunks[|chunks| - 1].page == page then [chunks[|chunks| - 1].content] else [])
  }

  lemma {:induction false} OfPageAppend(made: seq<PageChunk>, number: nat, contents: seq<string>, page: nat)
    ensures OfPage(made + OnPage(number, contents, |made|), page) == OfPage(made, page) + (if number == page then contents else [])
    decreases |contents|
  {
    var all := made + OnPage(number, contents, |made|);
    if contents == [] {
      assert all == made;
    } else {
      var n := |contents| - 1;
      OfPageAppend(made, number, contents[..n], page);
      assert all[..|all| - 1] == made + OnPage(number, contents[..n], |made|);
      assert contents == contents[..n] + [contents[n]];
    }
  }

  /** The chunks of the page hold its ink, in order, trimmed and within the limit. */
  ghost predicate HoldsPage(chunks: seq<PageChunk>, page: Page, maximum: nat) {
    var contents := OfPage(chunks, page.number);
    B.WellCut(contents, maximum) && T.Ink(Flatten(contents)) == T.Ink(page.text)
  }

  ghost predicate HasPage(pages: seq<Page>, number: nat) {
    exists k :: 0 <= k < |pages| && pages[k].number == number
  }

  /** Every page is held, and every chunk, numbered from zero, is of a page of the document. */
  ghost predicate HoldsPages(chunks: seq<PageChunk>, pages: seq<Page>, maximum: nat) {
    && (forall k :: 0 <= k < |pages| ==> HoldsPage(chunks, pages[k], maximum))
    && (forall i :: 0 <= i < |chunks| ==> chunks[i].ordinal == i && HasPage(pages, chunks[i].page))
  }

  lemma {:induction false} NotOfPage(chunks: seq<PageChunk>, page: nat)
    requires forall i :: 0 <= i < |chunks| ==> chunks[i].page != page
    ensures OfPage(chunks, page) == []
  {
    if chunks != [] {
      NotOfPage(chunks[..|chunks| - 1], page);
    }
  }

  lemma {:induction false} PagesHeld(pages: seq<Page>, heading: string -> bool, limits: Limits)
    requires PagesChunks(pages, heading, limits).Ok? && PagesInOrder(pages)
    ensures var chunks := PagesChunks(pages, heading, limits).value;
            HoldsPages(chunks, pages, limits.maxChars) && forall i, j :: 0 <= i < j < |chunks| ==> chunks[i].page <= chunks[j].page
  {
    hide T.Ink, Flatten, B.WellCut, PdfText.Sections, PdfText.PageParts, PageNumbers, OfPage, PagesInOrder;
    if pages != [] {
      var n := |pages| - 1;
      var front, last := pages[..n], pages[n];
      assert PagesInOrder(front) by { FrontInOrder(pages); }
      PagesHeld(front, heading, limits);
      var made := PagesChunks(front, heading, limits).value;
      var parts := PdfText.PageParts(PdfText.Sections(last.text, heading), limits.maxChars);
      var chunks := PagesChunks(pages, heading, limits).value;
      PdfText.PageKeepsInk(last.text, heading, limits.maxChars);
      assert forall k :: 0 <= k < n ==> front[k].number in PageNumbers(front) by { NumbersThere(front); }
      forall i | 0 <= i < |chunks| ensures HasPage(pages, chunks[i].page) {
        if i < |made| {
          var k :| 0 <= k < n && front[k].number == made[i].page;
          assert pages[k].number == chunks[i].page;
        } else {
          assert pages[n].number == chunks[i].page;
        }
      }
      forall i | 0 <= i < |made| ensures made[i].page < last.number || (made[i].page <= last.number && made[i].page != last.number) {
        var k :| 0 <= k < n && front[k].number == made[i].page;
        PageOrderReaches(pages, k, n);
      }
      NotOfPage(made, last.number);
      forall k | 0 <= k < |pages| ensures HoldsPage(chunks, pages[k], limits.maxChars) {
        OfPageAppend(made, last.number, parts, pages[k].number);
        if k < n {
          assert front[k].number != last.number;
          assert HoldsPage(made, front[k], limits.maxChars);
          assert OfPage(chunks, pages[k].number) == OfPage(made, front[k].number);
        } else {
          assert OfPage(chunks, pages[k].number) == parts;
        }
      }
    }
  }

  lemma FrontInOrder(pages: seq<Page>)
    requires pages != [] && PagesInOrder(pages)
    ensures PagesInOrder(pages[..|pages| - 1])
  {
  }

  lemma NumbersThere(pages: seq<Page>)
    ensures forall k :: 0 <= k < |pages| ==> pages[k].number in PageNumbers(pages)
  {
  }

  /**
   Whatever order the pages of a chunked PDF are given in: the chunks are numbered, they follow the page numbers, and those
   of each page hold its non-whitespace characters in order, trimmed and within the limit.
   */
  lemma {:induction false} PdfHoldsPages(pages: seq<Page>, sheets: nat, heading: string -> bool, limits: Limits)
    requires PdfChunks(pages, sheets, heading, limits).Ok?
    ensures var chunks := PdfChunks(pages, sheets, heading, limits).value;
            HoldsPages(chunks, pages, limits.maxChars) && forall i, j :: 0 <= i < j < |chunks| ==> chunks[i].page <= chunks[j].page
  {
    hide PagesChunks, SortPages, HoldsPage;
    var sorted := SortPages(pages);
    SortPagesOrdered(pages);
    PagesHeld(sorted, heading, limits);
    var chunks := PdfChunks(pages, sheets, heading, limits).value;
    forall k | 0 <= k < |pages| ensures HoldsPage(chunks, pages[k], limits.maxChars) {
      var j := FindIn(pages[k], pages, sorted);
    }
    forall i | 0 <= i < |chunks| ensures HasPage(pages, chunks[i].page) {
      var j :| 0 <= j < |sorted| && sorted[j].number == chunks[i].page;
      var k := FindIn(sorted[j], sorted, pages);
    }
  }
}
