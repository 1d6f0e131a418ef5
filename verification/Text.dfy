/**
 Python's text primitives used by the models: whitespace, stripping, collapsing and erasing whitespace.
 */
module Text {
  import Rendering

  /** The characters that `str.isspace`, `str.split()` and `str.strip()` treat as whitespace. */
  predicate IsSpace(c: char) {
    var n := c as int;
    || 0x09 <= n <= 0x0D
    || 0x1C <= n <= 0x20
    || n == 0x85 || n == 0xA0 || n == 0x1680
    || 0x2000 <= n <= 0x200A
    || n == 0x2028 || n == 0x2029 || n == 0x202F || n == 0x205F || n == 0x3000
  }

  predicate AllSpace(s: string) {
    forall i :: 0 <= i < |s| ==> IsSpace(s[i])
  }

  /** No whitespace at either end. */
  predicate Trimmed(s: string) {
    s != [] ==> !IsSpace(s[0]) && !IsSpace(s[|s| - 1])
  }

  /** The non-whitespace characters, in order. */
  function Ink(s: string): string {
    if s == [] then [] else (if IsSpace(s[0]) then [] else [s[0]]) + Ink(s[1..])
  }

  function StripLeft(s: string): string {
    if s != [] && IsSpace(s[0]) then StripLeft(s[1..]) else s
  }

  function StripRight(s: string): string {
    if s != [] && IsSpace(s[|s| - 1]) then StripRight(s[..|s| - 1]) else s
  }

  function Strip(s: string): string {
    StripRight(StripLeft(s))
  }

  /** `" ".join(s.split())`, given whether a word was already emitted and whether whitespace followed it. */
  function Collapse(s: string, started: bool := false, gap: bool := false): string {
    if s == [] then
      []
    else if IsSpace(s[0]) then
      Collapse(s[1..], started, true)
    else
      (if started && gap then [' ', s[0]] else [s[0]]) + Collapse(s[1..], true, false)
  }

  lemma {:induction false} InkConcat(a: string, b: string)
    ensures Ink(a + b) == Ink(a) + Ink(b)
  {
    if a == [] {
      assert a + b == b;
    } else {
      assert (a + b)[1..] == a[1..] + b;
      InkConcat(a[1..], b);
    }
  }

  lemma {:induction false} InkEmpty(s: string)
    ensures Ink(s) == [] <==> AllSpace(s)
  {
    if s != [] {
      InkEmpty(s[1..]);
      if AllSpace(s[1..]) && IsSpace(s[0]) {
        forall i | 0 <= i < |s| ensures IsSpace(s[i]) {
          if i > 0 { assert s[i] == s[1..][i - 1]; }
        }
      }
    }
  }

  lemma {:induction false} StripLeftProperties(s: string)
    ensures var r := StripLeft(s);
            && |r| <= |s| && r == s[|s| - |r|..]
            && AllSpace(s[..|s| - |r|])
            && (r != [] ==> !IsSpace(r[0]))
            && Ink(r) == Ink(s)
  {
    if s != [] && IsSpace(s[0]) {
      StripLeftProperties(s[1..]);
      var r := StripLeft(s);
      assert s[1..][|s| - 1 - |r|..] == s[|s| - |r|..];
      forall i | 0 <= i < |s| - |r| ensures IsSpace(s[i]) {
        if i > 0 { assert s[i] == s[1..][..|s| - 1 - |r|][i - 1]; }
      }
    }
  }

  lemma BlankSnoc(s: string, c: char)
    requires AllSpace(s) && IsSpace(c)
    ensures AllSpace(s + [c])
  {
  }

  lemma BlankInk(c: char)
    requires IsSpace(c)
    ensures Ink([c]) == []
  {
    hide IsSpace;
    assert [c][1..] == [];
  }

  lemma {:induction false} StripRightProperties(s: string)
    ensures var r := StripRight(s);
            && |r| <= |s| && r == s[..|r|]
            && AllSpace(s[|r|..])
            && (r != [] ==> !IsSpace(r[|r| - 1]))
            && Ink(r) == Ink(s)
  {
    if s != [] && IsSpace(s[|s| - 1]) {
      var front := s[..|s| - 1];
      StripRightProperties(front);
      var r, last := StripRight(s), s[|s| - 1];
      hide AllSpace, Ink;
      assert front[..|r|] == s[..|r|];
      assert s[|r|..] == front[|r|..] + [last];
      BlankSnoc(front[|r|..], last);
      assert s == front + [last];
      InkConcat(front, [last]);
      BlankInk(last);
    } else {
      assert s == s[..|s|];
    }
  }

  lemma {:induction false} LeadingBlank(s: string) returns (a: string)
    ensures AllSpace(a) && s == a + StripLeft(s)
  {
    hide StripLeft, AllSpace, IsSpace, Ink;
    StripLeftProperties(s);
    a := s[..|s| - |StripLeft(s)|];
  }

  lemma {:induction false} TrailingBlank(s: string) returns (b: string)
    ensures AllSpace(b) && s == StripRight(s) + b
  {
    hide StripRight, AllSpace, IsSpace, Ink;
    StripRightProperties(s);
    b := s[|StripRight(s)|..];
  }

  /** Stripping takes whitespace off both ends, and all of it. */
  lemma {:induction false} StripExactly(s: string) returns (a: string, b: string)
    ensures Trimmed(Strip(s)) && AllSpace(a) && AllSpace(b) && s == a + Strip(s) + b
  {
    StripProperties(s);
    hide StripLeft, StripRight, AllSpace, Trimmed, Ink;
    a := LeadingBlank(s);
    b := TrailingBlank(StripLeft(s));
    assert s == a + (Strip(s) + b);
  }

  /** Stripping trims, keeps the ink and returns an infix of its argument. */
  lemma {:induction false} StripProperties(s: string)
    ensures var r := Strip(s);
            && Trimmed(r) && Ink(r) == Ink(s) && |r| <= |s|
            && (r == [] <==> AllSpace(s))
            && (s != [] && IsSpace(s[0]) ==> |r| < |s|)
            && (s != [] && IsSpace(s[|s| - 1]) ==> |r| < |s|)
  {
    StripLeftProperties(s);
    StripRightProperties(StripLeft(s));
    InkEmpty(s);
    InkEmpty(Strip(s));
    if Strip(s) == [] {
      assert Ink(s) == [];
    }
  }

  // ---------------------------------------------------------------- words

  /** `s.split()`: the runs of characters between whitespace. */
  function Words(s: string): (r: seq<string>)
    ensures s != [] && !IsSpace(s[0]) ==> r != []
  {
    if s == [] then []
    else if IsSpace(s[0]) then Words(s[1..])
    else if |s| == 1 || IsSpace(s[1]) then [[s[0]]] + Words(s[1..])
    else
      var rest := Words(s[1..]);
      [[s[0]] + rest[0]] + rest[1..]
  }

  /** A word: not empty, and without whitespace. */
  predicate IsWord(w: string) {
    w != [] && forall i :: 0 <= i < |w| ==> !IsSpace(w[i])
  }

  lemma {:induction false} WordsAreWords(s: string)
    ensures forall i :: 0 <= i < |Words(s)| ==> IsWord(Words(s)[i])
  {
    if s != [] {
      WordsAreWords(s[1..]);
    }
  }

  /** The words joined by single spaces, after a space if something stands before them. */
  function Spaced(words: seq<string>, space: bool): string {
    if words == [] then [] else Gap(space) + Rendering.Join(words, ' ')
  }

  lemma Regroup(a: string, b: string, c: string)
    ensures a + (b + c) == a + b + c
  {
  }

  function Gap(space: bool): string {
    if space then [' '] else []
  }

  /** A letter that is a word of its own so far. */
  lemma NewWord(c: char, rest: seq<string>, space: bool)
    ensures Spaced([[c]] + rest, space) == Gap(space) + [c] + Spaced(rest, true)
  {
    hide Rendering.Join;
    Rendering.JoinUnfolds([c], rest, ' ');
    var joined := Rendering.Join(rest, ' ');
    Regroup(Gap(space), [c], if rest == [] then "" else [' '] + joined);
    Regroup([c], [' '], joined);
    assert [c] + "" == [c];
  }

  /** A letter in front of the first word. */
  lemma SameWord(c: char, rest: seq<string>, space: bool)
    requires rest != []
    ensures Spaced([[c] + rest[0]] + rest[1..], space) == Gap(space) + [c] + Spaced(rest, false)
  {
    hide Rendering.Join;
    Rendering.JoinUnfolds([c] + rest[0], rest[1..], ' ');
    Rendering.JoinUnfolds(rest[0], rest[1..], ' ');
    assert [rest[0]] + rest[1..] == rest;
    var joined, tail := Rendering.Join(rest, ' '), Rendering.Join(rest[1..], ' ');
    Regroup([c], rest[0], [' ']);
    Regroup([c], rest[0] + [' '], tail);
    assert Rendering.Join([[c] + rest[0]] + rest[1..], ' ') == [c] + joined;
    Regroup(Gap(space), [c], joined);
    assert [] + joined == joined;
  }

  lemma {:induction false} CollapseJoins(s: string, started: bool, gap: bool)
    ensures Collapse(s, started, gap) == Spaced(Words(s), started && (gap || (s != [] && IsSpace(s[0]))))
  {
    hide Spaced, IsSpace;
    if s == [] {
      assert Spaced([], started && gap) == [] by { NothingSpaced(started && gap); }
    } else if IsSpace(s[0]) {
      CollapseJoins(s[1..], started, true);
    } else {
      CollapseJoins(s[1..], true, false);
      var rest := Words(s[1..]);
      NewWord(s[0], rest, started && gap);
      if rest != [] {
        SameWord(s[0], rest, started && gap);
      }
      NothingSpaced(true);
      NothingSpaced(false);
      assert [' ', s[0]] == [' '] + [s[0]] && [s[0]] == [] + [s[0]];
    }
  }

  lemma NothingSpaced(space: bool)
    ensures Spaced([], space) == []
  {
  }

  lemma {:induction false} WordFirst(w: string, tail: string)
    requires IsWord(w) && (tail == [] || IsSpace(tail[0]))
    ensures Words(w + tail) == [w] + Words(tail)
  {
    var s := w + tail;
    assert s[1..] == w[1..] + tail;
    if |w| == 1 {
      assert s[1..] == tail && [s[0]] == w;
      assert |s| == 1 || s[1] == tail[0];
    } else {
      assert s[1] == w[1];
      WordFirst(w[1..], tail);
      assert [w[0]] + w[1..] == w;
    }
  }

  lemma {:induction false} JoinedWords(words: seq<string>)
    requires forall i :: 0 <= i < |words| ==> IsWord(words[i])
    ensures Words(Rendering.Join(words, ' ')) == words
  {
    if words != [] {
      var rest := words[1..];
      assert [words[0]] + rest == words;
      JoinedWords(rest);
      Rendering.JoinUnfolds(words[0], rest, ' ');
      var joined := Rendering.Join(rest, ' ');
      var tail := if rest == [] then "" else [' '] + joined;
      SpaceFirst(joined);
      WordFirst(words[0], tail);
      hide Rendering.Join, Words, IsWord;
      Regroup(words[0], [' '], joined);
      assert words[0] + "" == words[0];
    }
  }

  lemma {:induction false} SpaceFirst(s: string)
    ensures Words([' '] + s) == Words(s) && Words([]) == []
  {
    assert ([' '] + s)[1..] == s;
  }

  /** Collapsing keeps the words, one space apart. */
  lemma {:induction false} CollapseKeepsWords(s: string)
    ensures Collapse(s) == Rendering.Join(Words(s), ' ') && Words(Collapse(s)) == Words(s)
  {
    CollapseJoins(s, false, false);
    assert Rendering.Join([], ' ') == [];
    assert [] + Rendering.Join(Words(s), ' ') == Rendering.Join(Words(s), ' ');
    WordsAreWords(s);
    JoinedWords(Words(s));
  }
}
