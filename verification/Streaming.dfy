/**
 Cutting a validated answer into the deltas that are streamed to the client.

 Words are gathered until the next one does not fit. A line that is already empty when a word arrives is mistaken for
 the beginning of the answer, and the space before that word is lost. `Lost` counts those spaces from the lengths of
 the words alone, and the deltas restore the answer exactly when it is zero.
 */
module Streaming {
  import opened Sequences
  import opened Rendering

  /** The deltas already cut and the line being gathered. */
  datatype Feed = Feed(chunks: seq<string>, current: string)

  function Sent(f: Feed): string {
    Flatten(f.chunks) + f.current
  }

  /** Cuts full lines off a word that is too long. */
  function Chop(f: Feed, maximum: nat): Feed
    requires maximum >= 1
    decreases |f.current|
  {
    if |f.current| <= maximum then f
    else Chop(Feed(f.chunks + [f.current[..maximum]], f.current[maximum..]), maximum)
  }

  function Candidate(current: string, word: string): string {
    if current == "" then word else current + [' '] + word
  }

  function Take(f: Feed, word: string, maximum: nat): Feed
    requires maximum >= 1
  {
    if |Candidate(f.current, word)| <= maximum then Feed(f.chunks, Candidate(f.current, word))
    else
      Chop(Feed(if f.current == "" then f.chunks else f.chunks + [f.current + [' ']], word), maximum)
  }

  function TakeAll(words: seq<string>, maximum: nat): Feed
    requires maximum >= 1
  {
    if words == [] then Feed([], "")
    else Take(TakeAll(words[..|words| - 1], maximum), words[|words| - 1], maximum)
  }

  function Finish(f: Feed): seq<string> {
    if f.current == "" then f.chunks else f.chunks + [f.current]
  }

  function Deltas(answer: string, maximum: nat): seq<string>
    requires maximum >= 1
  {
    Finish(TakeAll(Split(answer, ' '), maximum))
  }

  method ValidatedAnswerDeltas(answer: string, maximum: nat) returns (chunks: seq<string>)
    requires maximum >= 1
    ensures chunks == Deltas(answer, maximum)
  {
    var words := Split(answer, ' ');
    var current := "";
    chunks := [];
    for i := 0 to |words|
      invariant Feed(chunks, current) == TakeAll(words[..i], maximum)
    {
      assert words[..i + 1][..i] == words[..i];
      ghost var target := TakeAll(words[..i + 1], maximum);
      var word := words[i];
      var candidate := if current == "" then word else current + [' '] + word;
      if |candidate| <= maximum {
        current := candidate;
      } else {
        if current != "" {
          chunks := chunks + [current + [' ']];
        }
        while |word| > maximum
          invariant Chop(Feed(chunks, word), maximum) == target
          decreases |word|
        {
          chunks := chunks + [word[..maximum]];
          word := word[maximum..];
        }
        current := word;
      }
    }
    assert words[..|words|] == words;
    if current != "" {
      chunks := chunks + [current];
    }
  }

  // ---------------------------------------------------------------- lengths alone

  function Remainder(length: nat, maximum: nat): nat
    requires maximum >= 1
  {
    if length <= maximum then length else Remainder(length - maximum, maximum)
  }

  /** The length of the gathered line after the words, from their lengths. */
  function Held(words: seq<string>, maximum: nat): nat
    requires maximum >= 1
  {
    if words == [] then 0
    else
      var before, length := Held(words[..|words| - 1], maximum), |words[|words| - 1]|;
      var candidate := if before == 0 then length else before + 1 + length;
      if candidate <= maximum then candidate else Remainder(length, maximum)
  }

  /** How many words after the first arrive at an empty line: at one just filled exactly, or before anything was gathered. */
  function Lost(words: seq<string>, maximum: nat): nat
    requires maximum >= 1
  {
    if |words| <= 1 then 0
    else
      Lost(words[..|words| - 1], maximum) + (if Held(words[..|words| - 1], maximum) == 0 then 1 else 0)
  }

  /** No space at the front and no two in a row. */
  predicate SingleSpaced(s: string) {
    && (s != "" ==> s[0] != ' ')
    && forall i :: 0 <= i < |s| - 1 ==> s[i] != ' ' || s[i + 1] != ' '
  }

  function Letters(s: string): string {
    if s == "" then "" else Letters(s[..|s| - 1]) + (if s[|s| - 1] == ' ' then "" else [s[|s| - 1]])
  }

  // ---------------------------------------------------------------- proofs

  lemma {:induction false} LettersConcat(a: string, b: string)
    ensures Letters(a + b) == Letters(a) + Letters(b)
  {
    if b == "" {
      assert a + b == a;
    } else {
      assert (a + b)[..|a + b| - 1] == a + b[..|b| - 1];
      LettersConcat(a, b[..|b| - 1]);
    }
  }

  /** Every delta has between one and `maximum + 1` characters. */
  predicate Sized(chunks: seq<string>, maximum: nat) {
    forall i :: 0 <= i < |chunks| ==> 1 <= |chunks[i]| <= maximum + 1
  }

  lemma {:induction false} ChopKeeps(f: Feed, maximum: nat)
    requires maximum >= 1 && Sized(f.chunks, maximum)
    ensures Sent(Chop(f, maximum)) == Sent(f)
    ensures Sized(Chop(f, maximum).chunks, maximum)
    ensures |Chop(f, maximum).current| == Remainder(|f.current|, maximum) <= maximum
    decreases |f.current|
  {
    if |f.current| > maximum {
      var next := Feed(f.chunks + [f.current[..maximum]], f.current[maximum..]);
      FlattenSnoc(f.chunks, f.current[..maximum]);
      assert f.current == f.current[..maximum] + f.current[maximum..];
      assert Sent(next) == Sent(f);
      ChopKeeps(next, maximum);
    }
  }

  /** Taking a word appends it, after a space unless the line was empty. */
  lemma TakeKeeps(f: Feed, word: string, maximum: nat)
    requires maximum >= 1 && Sized(f.chunks, maximum) && |f.current| <= maximum
    ensures var g := Take(f, word, maximum);
            && Sized(g.chunks, maximum) && |g.current| <= maximum
            && Sent(g) == Sent(f) + (if f.current == "" then "" else " ") + word
  {
    if |Candidate(f.current, word)| > maximum && f.current != "" {
      FlattenSnoc(f.chunks, f.current + [' ']);
      assert Flatten(f.chunks) + (f.current + [' ']) + word == Sent(f) + " " + word;
      ChopKeeps(Feed(f.chunks + [f.current + [' ']], word), maximum);
    } else if |Candidate(f.current, word)| > maximum {
      ChopKeeps(Feed(f.chunks, word), maximum);
      assert Sent(Feed(f.chunks, word)) == Sent(f) + "" + word;
    }
  }

  lemma {:induction false} HeldIsLength(words: seq<string>, maximum: nat)
    requires maximum >= 1
    ensures Sized(TakeAll(words, maximum).chunks, maximum)
    ensures |TakeAll(words, maximum).current| == Held(words, maximum) <= maximum
  {
    if words != [] {
      var front, word := words[..|words| - 1], words[|words| - 1];
      HeldIsLength(front, maximum);
      var f := TakeAll(front, maximum);
      TakeKeeps(f, word, maximum);
      if |Candidate(f.current, word)| > maximum {
        var cut := if f.current == "" then f.chunks else f.chunks + [f.current + [' ']];
        ChopKeeps(Feed(cut, word), maximum);
      }
    }
  }

  /** What the words gathered so far amount to. */
  lemma {:induction false} Conserved(words: seq<string>, maximum: nat)
    requires maximum >= 1
    ensures var sent := Sent(TakeAll(words, maximum));
            && |sent| + Lost(words, maximum) == |Join(words, ' ')|
            && Letters(sent) == Letters(Join(words, ' '))
            && (Lost(words, maximum) == 0 ==> sent == Join(words, ' '))
  {
    if words != [] {
      var front, word := words[..|words| - 1], words[|words| - 1];
      var f := TakeAll(front, maximum);
      Conserved(front, maximum);
      HeldIsLength(front, maximum);
      TakeKeeps(f, word, maximum);
      if |words| == 1 {
        assert f == Feed([], "");
        assert Sent(f) + "" + word == word;
      } else {
        JoinSnoc(words, ' ');
        SpacedLetters(Sent(f), if f.current == "" then "" else " ", word);
        SpacedLetters(Join(front, ' '), " ", word);
      }
    }
  }

  lemma {:induction false} SpacedLetters(a: string, gap: string, b: string)
    requires gap == "" || gap == " "
    ensures Letters(a + gap + b) == Letters(a) + Letters(b)
  {
    GapHasNoLetters(gap);
    hide Letters;
    LettersConcat(a + gap, b);
    LettersConcat(a, gap);
  }

  lemma {:induction false} GapHasNoLetters(gap: string)
    requires gap == "" || gap == " "
    ensures Letters(gap) == ""
  {
    if gap == " " {
      assert gap[..0] == "";
    }
  }

  lemma FinishFlattens(f: Feed)
    ensures Flatten(Finish(f)) == Sent(f)
  {
    if f.current != "" {
      FlattenSnoc(f.chunks, f.current);
    }
  }

  /**
   For every answer: each delta has between 1 and `maximum + 1` characters, the characters other than spaces are kept
   in order, the number of missing spaces is `Lost`, and so the deltas restore the answer exactly when it is zero.
   */
  lemma {:induction false} DeltasRestore(answer: string, maximum: nat)
    requires maximum >= 1
    ensures var deltas, lost := Deltas(answer, maximum), Lost(Split(answer, ' '), maximum);
            && Sized(deltas, maximum)
            && Letters(Flatten(deltas)) == Letters(answer)
            && |Flatten(deltas)| + lost == |answer|
            && (Flatten(deltas) == answer <==> lost == 0)
  {
    hide Letters, Flatten, Lost, Split, TakeAll, Join;
    var words := Split(answer, ' ');
    SplitInverse(answer, ' ');
    Conserved(words, maximum);
    HeldIsLength(words, maximum);
    FinishFlattens(TakeAll(words, maximum));
  }

  lemma {:induction false} SingleSpacedWords(s: string)
    requires SingleSpaced(s)
    ensures forall k :: 0 <= k < |Split(s, ' ')| - 1 ==> Split(s, ' ')[k] != ""
    decreases |s|
  {
    var i := IndexOf(s, ' ');
    if i < |s| {
      var rest := s[i + 1..];
      if rest != "" {
        assert rest[0] == s[i + 1];
      }
      forall k | 0 <= k < |rest| - 1 ensures rest[k] != ' ' || rest[k + 1] != ' ' {
        var at := i + 1 + k;
        assert rest[k] == s[at] && rest[k + 1] == s[at + 1];
      }
      SingleSpacedWords(rest);
    }
  }

  lemma {:induction false} RemainderPositive(length: nat, maximum: nat)
    requires maximum >= 1 && length >= 1
    ensures Remainder(length, maximum) >= 1
  {
    if length > maximum {
      RemainderPositive(length - maximum, maximum);
    }
  }

  lemma {:induction false} NothingLost(words: seq<string>, maximum: nat)
    requires maximum >= 1 && forall k :: 0 <= k < |words| - 1 ==> words[k] != ""
    ensures Lost(words, maximum) == 0
  {
    if |words| > 1 {
      var front := words[..|words| - 1];
      NothingLost(front, maximum);
      RemainderPositive(|front[|front| - 1]|, maximum);
    }
  }

  /** The round trip promised to the client: no leading and no doubled space, no matter how long the words are. */
  lemma SingleSpacedRestored(answer: string, maximum: nat)
    requires maximum >= 1 && SingleSpaced(answer)
    ensures Flatten(Deltas(answer, maximum)) == answer
  {
    SingleSpacedWords(answer);
    NothingLost(Split(answer, ' '), maximum);
    DeltasRestore(answer, maximum);
  }

  lemma {:induction false} LostGrows(words: seq<string>, maximum: nat)
    requires maximum >= 1 && |words| >= 2 && words[0] == ""
    ensures Lost(words, maximum) >= 1
  {
    if |words| == 2 {
      assert words[..1][..0] == [];
      assert Held(words[..1], maximum) == 0;
    } else {
      LostGrows(words[..|words| - 1], maximum);
    }
  }

  /** A leading space is lost at every maximum. */
  lemma LeadingSpaceLost(rest: string, maximum: nat)
    requires maximum >= 1
    ensures Flatten(Deltas([' '] + rest, maximum)) != [' '] + rest
  {
    var answer := [' '] + rest;
    assert Split(answer, ' ') == [answer[..0]] + Split(answer[1..], ' ');
    SplitInverse(answer[1..], ' ');
    LostGrows(Split(answer, ' '), maximum);
    DeltasRestore(answer, maximum);
  }

  /** A doubled space inside an answer is lost when it falls behind a full line. */
  lemma DoubledSpaceAtTheEdge(rest: string, maximum: nat)
    requires maximum >= 1 && SingleSpaced(rest)
    ensures var line := seq(maximum, i => 'x');
            && Lost(Split(line + "  " + rest, ' '), maximum) == 1
            && Flatten(Deltas(line + "  " + rest, maximum)) != line + "  " + rest
  {
    var line := seq(maximum, i => 'x');
    var answer := line + "  " + rest;
    assert answer == line + [' '] + ([' '] + rest);
    IndexOfAfter(line, ' ', [' '] + rest);
    IndexOfAfter("", ' ', rest);
    assert answer[maximum + 1..] == "" + [' '] + rest;
    assert answer[maximum + 1..][1..] == rest;
    assert answer[..maximum] == line;
    SplitInverse(rest, ' ');
    SingleSpacedWords(rest);
    assert Split(answer, ' ') == [line, ""] + Split(rest, ' ');
    EdgeLost(line, Split(rest, ' '), maximum);
    DeltasRestore(answer, maximum);
  }

  lemma {:induction false} EdgeLost(line: string, words: seq<string>, maximum: nat)
    requires maximum >= 1 && |line| == maximum && words != []
    requires forall k :: 0 <= k < |words| - 1 ==> words[k] != ""
    ensures Lost([line, ""] + words, maximum) == 1
  {
    var all := [line, ""] + words;
    if |words| == 1 {
      assert all[..2] == [line, ""];
      assert all[..2][..1] == [line];
      assert [line][..0] == [];
      assert Held([line], maximum) == maximum;
      assert Held([line, ""], maximum) == 0;
      assert Lost([line, ""], maximum) == 0;
    } else {
      var front := words[..|words| - 1];
      assert all[..|all| - 1] == [line, ""] + front;
      EdgeLost(line, front, maximum);
      RemainderPositive(|front[|front| - 1]|, maximum);
    }
  }
}
