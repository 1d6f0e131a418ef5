/**
 Text of a PDF page: sections begin at headings, and each section is split into parts of bounded length. What counts
 as a heading is left open; the page text is taken after normalization.
 */
module PdfText {
  import opened Sequences
  import opened Text
  import opened BoundedText
  import R = Rendering

  /** The sections closed so far and the lines of the open one. */
  datatype Draft = Draft(sections: seq<string>, current: seq<string>)

  function Close(d: Draft): seq<string> {
    var section := Strip(R.Join(d.current, '\n'));
    if section == "" then d.sections else d.sections + [section]
  }

  predicate HasText(lines: seq<string>) {
    exists i :: 0 <= i < |lines| && Strip(lines[i]) != ""
  }

  function ReadLine(d: Draft, line: string, heading: string -> bool): Draft {
    if heading(line) && HasText(d.current) then Draft(Close(d), [line]) else Draft(d.sections, d.current + [line])
  }

  function ReadLines(lines: seq<string>, heading: string -> bool): Draft {
    if lines == [] then Draft([], [])
    else ReadLine(ReadLines(lines[..|lines| - 1], heading), lines[|lines| - 1], heading)
  }

  function Sections(text: string, heading: string -> bool): seq<string> {
    Close(ReadLines(R.Split(text, '\n'), heading))
  }

  function PageParts(sections: seq<string>, maximum: nat): seq<string>
    requires 1 <= maximum
  {
    if sections == [] then [] else PageParts(sections[..|sections| - 1], maximum) + Bounded(sections[|sections| - 1], maximum)
  }

  method PdfSections(text: string, heading: string -> bool) returns (sections: seq<string>)
    ensures sections == Sections(text, heading)
  {
    var lines := R.Split(text, '\n');
    var current := [];
    sections := [];
    for i := 0 to |lines|
      invariant Draft(sections, current) == ReadLines(lines[..i], heading)
    {
      assert lines[..i + 1][..i] == lines[..i];
      var line := lines[i];
      if heading(line) && HasText(current) {
        var section := Strip(R.Join(current, '\n'));
        if section != "" {
          sections := sections + [section];
        }
        current := [line];
      } else {
        current := current + [line];
      }
    }
    assert lines[..|lines|] == lines;
    var section := Strip(R.Join(current, '\n'));
    if section != "" {
      sections := sections + [section];
    }
  }

  /** The contents of a page's chunks: all parts of all its sections. */
  method ChunkPage(text: string, heading: string -> bool, maximum: nat) returns (contents: seq<string>)
    requires 1 <= maximum
    ensures contents == PageParts(Sections(text, heading), maximum)
    ensures WellCut(contents, maximum) && Ink(Flatten(contents)) == Ink(text)
  {
    hide Sections, Bounded, Ink;
    var sections := PdfSections(text, heading);
    contents := [];
    for i := 0 to |sections|
      invariant contents == PageParts(sections[..i], maximum)
    {
      assert sections[..i + 1][..i] == sections[..i];
      var parts := BoundedText.Split(sections[i], maximum);
      contents := contents + parts;
    }
    assert sections[..|sections|] == sections;
    PageKeepsInk(text, heading, maximum);
  }

  // ---------------------------------------------------------------- nothing is lost

  lemma {:induction false} InkSnoc(parts: seq<string>, last: string)
    ensures Ink(Flatten(parts + [last])) == Ink(Flatten(parts)) + Ink(last)
  {
    hide Ink;
    FlattenSnoc(parts, last);
    InkConcat(Flatten(parts), last);
  }

  lemma BreakHasNoInk()
    ensures Ink(['\n']) == []
  {
    assert ['\n'][1..] == [];
  }

  /** Joining lines adds no ink. */
  lemma {:induction false} JoinInk(lines: seq<string>, last: string)
    ensures Ink(R.Join(lines + [last], '\n')) == Ink(R.Join(lines, '\n')) + Ink(last)
  {
    var all := lines + [last];
    assert all[..|lines|] == lines;
    if lines == [] {
      assert R.Join(all, '\n') == last;
    } else {
      R.JoinSnoc(all, '\n');
      BreakHasNoInk();
      hide Ink, R.Join;
      InkConcat(R.Join(lines, '\n') + ['\n'], last);
      InkConcat(R.Join(lines, '\n'), ['\n']);
    }
  }

  /** Sections are non-empty and trimmed. */
  predicate Proper(sections: seq<string>) {
    forall i :: 0 <= i < |sections| ==> sections[i] != "" && Trimmed(sections[i])
  }

  lemma CloseKeeps(d: Draft)
    requires Proper(d.sections)
    ensures Proper(Close(d)) && Ink(Flatten(Close(d))) == Ink(Flatten(d.sections)) + Ink(R.Join(d.current, '\n'))
  {
    hide Ink, R.Join, Flatten, StripLeft, StripRight;
    var text := R.Join(d.current, '\n');
    var section := Strip(text);
    StripProperties(text);
    if section == "" {
      InkEmpty(text);
    } else {
      InkSnoc(d.sections, section);
    }
  }

  /** The ink read so far. */
  function DraftInk(d: Draft): string {
    Ink(Flatten(d.sections)) + Ink(R.Join(d.current, '\n'))
  }

  lemma {:induction false} ReadKeeps(d: Draft, line: string, heading: string -> bool)
    requires Proper(d.sections)
    ensures Proper(ReadLine(d, line, heading).sections)
    ensures DraftInk(ReadLine(d, line, heading)) == DraftInk(d) + Ink(line)
  {
    hide Ink, R.Join, Flatten, Close, HasText;
    if heading(line) && HasText(d.current) {
      CloseKeeps(d);
      JoinInk([], line);
      assert [] + [line] == [line];
      EmptyInk();
    } else {
      JoinInk(d.current, line);
    }
  }

  lemma {:induction false} DraftKeeps(lines: seq<string>, heading: string -> bool)
    ensures Proper(ReadLines(lines, heading).sections)
    ensures DraftInk(ReadLines(lines, heading)) == Ink(R.Join(lines, '\n'))
  {
    if lines == [] {
      assert Flatten<char>([]) == "" && R.Join([], '\n') == "";
    } else {
      hide Ink, R.Join, DraftInk, ReadLine;
      var front, line := lines[..|lines| - 1], lines[|lines| - 1];
      DraftKeeps(front, heading);
      ReadKeeps(ReadLines(front, heading), line, heading);
      assert lines == front + [line];
      JoinInk(front, line);
    }
  }

  lemma EmptyInk()
    ensures Ink(R.Join([], '\n')) == []
  {
  }

  /** Sections are non-empty and trimmed, and together hold exactly the ink of the page, in order. */
  lemma {:induction false} SectionsKeepInk(text: string, heading: string -> bool)
    ensures Proper(Sections(text, heading)) && Ink(Flatten(Sections(text, heading))) == Ink(text)
  {
    hide Ink, R.Join, Flatten, Close, ReadLines, R.Split;
    var lines := R.Split(text, '\n');
    DraftKeeps(lines, heading);
    CloseKeeps(ReadLines(lines, heading));
    R.SplitInverse(text, '\n');
  }

  lemma WellCutConcat(a: seq<string>, b: seq<string>, maximum: nat)
    requires WellCut(a, maximum) && WellCut(b, maximum)
    ensures WellCut(a + b, maximum)
  {
  }

  /** Appending the parts of one more section. */
  lemma {:induction false} PartsAppended(made: seq<string>, front: seq<string>, last: string, maximum: nat)
    requires 1 <= maximum && WellCut(made, maximum) && Ink(Flatten(made)) == Ink(Flatten(front))
    ensures WellCut(made + Bounded(last, maximum), maximum)
    ensures Ink(Flatten(made + Bounded(last, maximum))) == Ink(Flatten(front + [last]))
  {
    hide Ink, Bounded, Flatten, WellCut;
    var parts := Bounded(last, maximum);
    BoundedProperties(last, maximum);
    WellCutConcat(made, parts, maximum);
    FlattenConcat(made, parts);
    InkConcat(Flatten(made), Flatten(parts));
    InkSnoc(front, last);
  }

  lemma {:induction false} PagePartsKeep(sections: seq<string>, maximum: nat)
    requires 1 <= maximum
    ensures WellCut(PageParts(sections, maximum), maximum)
    ensures Ink(Flatten(PageParts(sections, maximum))) == Ink(Flatten(sections))
  {
    hide Ink, Bounded, Flatten, WellCut;
    if sections == [] {
      NothingParted(maximum);
    } else {
      var front, last := sections[..|sections| - 1], sections[|sections| - 1];
      PagePartsKeep(front, maximum);
      PartsAppended(PageParts(front, maximum), front, last, maximum);
      assert sections == front + [last];
    }
  }

  /** The parts of each section, one after the other: no part spans two sections. */
  lemma {:induction false} PartsPerSection(sections: seq<string>, maximum: nat)
    requires 1 <= maximum
    ensures PageParts(sections, maximum) == Flatten(PartsOf(sections, maximum))
  {
    hide Bounded;
    if sections == [] {
      assert PartsOf(sections, maximum) == [];
    } else {
      var front, last := sections[..|sections| - 1], sections[|sections| - 1];
      PartsPerSection(front, maximum);
      assert PartsOf(sections, maximum) == PartsOf(front, maximum) + [Bounded(last, maximum)];
      FlattenSnoc(PartsOf(front, maximum), Bounded(last, maximum));
    }
  }

  function PartsOf(sections: seq<string>, maximum: nat): (r: seq<seq<string>>)
    requires 1 <= maximum
    ensures |r| == |sections| && forall i :: 0 <= i < |r| ==> r[i] == Bounded(sections[i], maximum)
  {
    seq(|sections|, i requires 0 <= i < |sections| => Bounded(sections[i], maximum))
  }

  lemma NothingParted(maximum: nat)
    ensures WellCut([], maximum)
  {
  }

  /** Every page is chunked without losing a non-whitespace character: the chunks fit the limit and hold the ink of the page, in order. */
  lemma {:induction false} PageKeepsInk(text: string, heading: string -> bool, maximum: nat)
    requires 1 <= maximum
    ensures var contents := PageParts(Sections(text, heading), maximum);
            WellCut(contents, maximum) && Ink(Flatten(contents)) == Ink(text)
  {
    hide Ink, PageParts, Flatten, Sections;
    SectionsKeepInk(text, heading);
    PagePartsKeep(Sections(text, heading), maximum);
  }

  // ---------------------------------------------------------------- where sections begin

  /** The lines of the blocks are the lines of the page. */
  ghost predicate Blocks(blocks: seq<seq<string>>, lines: seq<string>, heading: string -> bool) {
    && Flatten(blocks) == lines
    && (forall i :: 0 <= i < |blocks| ==> blocks[i] != [] && OneBlock(blocks[i], heading))
    && (forall i :: 0 <= i < |blocks| - 1 ==> HasText(blocks[i]))
    && (forall i :: 1 <= i < |blocks| ==> heading(blocks[i][0]))
  }

  /** Within a block, a heading after the first line has only blank lines before it. */
  ghost predicate OneBlock(block: seq<string>, heading: string -> bool) {
    forall j :: 1 <= j < |block| && heading(block[j]) ==> !HasText(block[..j])
  }

  /** The text of a block, which may be blank. */
  function SectionsOf(blocks: seq<seq<string>>): seq<string> {
    if blocks == [] then []
    else
      var section := Strip(R.Join(blocks[|blocks| - 1], '\n'));
      SectionsOf(blocks[..|blocks| - 1]) + (if section == "" then [] else [section])
  }

  lemma {:induction false} OneMoreLine(blocks: seq<seq<string>>, lines: seq<string>, line: string, heading: string -> bool)
    returns (next: seq<seq<string>>)
    requires blocks != [] && Blocks(blocks, lines, heading)
    ensures next != [] && Blocks(next, lines + [line], heading)
    ensures var n := |blocks| - 1;
            next == if heading(line) && HasText(blocks[n]) then blocks + [[line]] else blocks[..n] + [blocks[n] + [line]]
  {
    hide Flatten, HasText;
    var n := |blocks| - 1;
    assert blocks == blocks[..n] + [blocks[n]];
    FlattenSnoc(blocks[..n], blocks[n]);
    if heading(line) && HasText(blocks[n]) {
      next := blocks + [[line]];
      FlattenSnoc(blocks, [line]);
    } else {
      var block := blocks[n] + [line];
      next := blocks[..n] + [block];
      FlattenSnoc(blocks[..n], block);
      assert Flatten(blocks[..n]) + (blocks[n] + [line]) == Flatten(blocks[..n]) + blocks[n] + [line];
      forall j | 1 <= j < |block| && heading(block[j]) ensures !HasText(block[..j]) {
        if j < |blocks[n]| {
          assert block[..j] == blocks[n][..j];
        } else {
          assert block[..j] == blocks[n];
        }
      }
      assert OneBlock(block, heading);
    }
  }

  lemma FirstLine(line: string, heading: string -> bool)
    ensures Blocks([[line]], [line], heading)
  {
    assert Flatten([[line]]) == [line] + Flatten([]) == [line];
  }

  /** The draft after some lines holds the sections of all blocks but the last, whose lines are the open ones. */
  lemma {:induction false} DraftDivides(lines: seq<string>, heading: string -> bool) returns (blocks: seq<seq<string>>)
    requires lines != []
    ensures blocks != [] && Blocks(blocks, lines, heading)
    ensures ReadLines(lines, heading) == Draft(SectionsOf(blocks[..|blocks| - 1]), blocks[|blocks| - 1])
  {
    hide Flatten, HasText, Strip, R.Join, Blocks;
    var n := |lines| - 1;
    var line := lines[n];
    if n == 0 {
      blocks := [[line]];
      FirstLine(line, heading);
      assert lines == [line];
      NothingRead(line, heading);
    } else {
      var front := DraftDivides(lines[..n], heading);
      assert lines == lines[..n] + [line];
      blocks := OneMoreLine(front, lines[..n], line, heading);
      var m := |front| - 1;
      if heading(line) && HasText(front[m]) {
        assert blocks[..|blocks| - 1] == front;
      } else {
        assert blocks[..|blocks| - 1] == front[..m];
      }
    }
  }

  lemma NothingRead(line: string, heading: string -> bool)
    ensures ReadLines([line], heading) == Draft([], [line])
  {
    assert [line][..0] == [];
  }

  /**
   The lines of a page fall into blocks: a new one begins exactly at a heading with some text before it in its block. The
   sections are the texts of the blocks, in order, without a blank one.
   */
  lemma {:induction false} SectionsDivide(text: string, heading: string -> bool) returns (blocks: seq<seq<string>>)
    ensures Blocks(blocks, R.Split(text, '\n'), heading)
    ensures Sections(text, heading) == SectionsOf(blocks)
  {
    hide Flatten, HasText, Strip, R.Join, R.Split, Blocks;
    var lines := R.Split(text, '\n');
    assert lines != [] by { SomeLine(text); }
    blocks := DraftDivides(lines, heading);
  }

  lemma {:induction false} SomeLine(text: string)
    ensures R.Split(text, '\n') != []
  {
  }
}
