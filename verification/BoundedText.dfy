/**
 Splitting text into parts of bounded length at paragraph, line or word breaks.
 */
module BoundedText {
  import opened Sequences
  import opened Text

  /** `sub` stands at position `i` of `s`. */
  predicate At(s: string, sub: string, i: int) {
    0 <= i && i + |sub| <= |s| && s[i..i + |sub|] == sub
  }

  /** `s.rfind(sub, from, |s|)`: the last position not before `from`, or -1. */
  function RFind(s: string, sub: string, from: nat): (r: int)
    ensures r == -1 || (from <= r && At(s, sub, r))
    ensures forall i :: from <= i && r < i ==> !At(s, sub, i)
  {
    RFindDown(s, sub, from, |s|)
  }

  function RFindDown(s: string, sub: string, from: nat, i: int): (r: int)
    requires i <= |s|
    requires forall j :: i < j ==> !At(s, sub, j)
    ensures r == -1 || (from <= r <= i && At(s, sub, r))
    ensures forall j :: from <= j && r < j ==> !At(s, sub, j)
    decreases i + 1
  {
    if i < from then -1 else if At(s, sub, i) then i else RFindDown(s, sub, from, i - 1)
  }

  /** The last break of one kind in the second half of the window, if there is one after its first character. */
  ghost predicate LastBreak(window: string, sub: string, lower: nat, at: int) {
    && 0 < at && lower <= at && At(window, sub, at)
    && forall i :: at < i ==> !At(window, sub, i)
  }

  ghost predicate NoBreak(window: string, sub: string, lower: nat) {
    forall i :: 0 < i && lower <= i ==> !At(window, sub, i)
  }

  /**
   Where a text that is too long is cut: at the last paragraph break of the window, else at its last line break,
   else at its last space, else at the limit.
   */
  function SplitPoint(remaining: string, maximum: nat): (at: nat)
    requires 1 <= maximum < |remaining|
    ensures 1 <= at <= maximum
    ensures var window, lower := remaining[..maximum + 1], maximum / 2;
            || LastBreak(window, "\n\n", lower, at)
            || (NoBreak(window, "\n\n", lower) && LastBreak(window, "\n", lower, at))
            || (NoBreak(window, "\n\n", lower) && NoBreak(window, "\n", lower) && LastBreak(window, " ", lower, at))
            || (NoBreak(window, "\n\n", lower) && NoBreak(window, "\n", lower) && NoBreak(window, " ", lower) && at == maximum)
  {
    var window := remaining[..maximum + 1];
    var lower := maximum / 2;
    var paragraph, line, space := RFind(window, "\n\n", lower), RFind(window, "\n", lower), RFind(window, " ", lower);
    if paragraph > 0 then paragraph else if line > 0 then line else if space > 0 then space else maximum
  }

  datatype Cut = Cut(at: nat, part: string)

  /** The next part and where the rest begins; a blank part would fall back to a cut at the limit. */
  function NextCut(remaining: string, maximum: nat): (cut: Cut)
    requires 1 <= maximum < |remaining|
    ensures 1 <= cut.at <= maximum
  {
    var at := SplitPoint(remaining, maximum);
    var part := Strip(remaining[..at]);
    if part == "" then Cut(maximum, remaining[..maximum]) else Cut(at, part)
  }

  /** The parts of an already stripped text. */
  function Parts(remaining: string, maximum: nat): seq<string>
    requires 1 <= maximum
    decreases |remaining|
  {
    if remaining == "" then []
    else if |remaining| <= maximum then [remaining]
    else
      var cut := NextCut(remaining, maximum);
      StripProperties(remaining[cut.at..]);
      [cut.part] + Parts(Strip(remaining[cut.at..]), maximum)
  }

  function Bounded(value: string, maximum: nat): seq<string>
    requires 1 <= maximum
  {
    Parts(Strip(value), maximum)
  }

  /** Every part is non-empty, trimmed and within the limit. */
  ghost predicate WellCut(parts: seq<string>, maximum: nat) {
    forall i :: 0 <= i < |parts| ==> parts[i] != "" && Trimmed(parts[i]) && |parts[i]| <= maximum
  }

  /** The head of a stripped text is never blank, so the fallback for an empty part is unreachable. */
  lemma CutIsProper(remaining: string, maximum: nat)
    requires 1 <= maximum < |remaining| && Trimmed(remaining)
    ensures var cut := NextCut(remaining, maximum);
            && cut.at == SplitPoint(remaining, maximum) && cut.part == Strip(remaining[..cut.at])
            && cut.part != "" && Trimmed(cut.part) && |cut.part| <= maximum
            && Ink(cut.part) == Ink(remaining[..cut.at])
  {
    hide StripLeft, StripRight;
    var at := SplitPoint(remaining, maximum);
    StripProperties(remaining[..at]);
    assert remaining[..at][0] == remaining[0];
    assert !AllSpace(remaining[..at]);
  }

  lemma {:induction false} PartsProperties(remaining: string, maximum: nat)
    requires 1 <= maximum && Trimmed(remaining)
    ensures WellCut(Parts(remaining, maximum), maximum)
    ensures Ink(Flatten(Parts(remaining, maximum))) == Ink(remaining)
    ensures Parts(remaining, maximum) == [] <==> remaining == ""
    decreases |remaining|
  {
    hide Strip, NextCut, Ink, Trimmed;
    if remaining != "" && |remaining| <= maximum {
      assert Parts(remaining, maximum) == [remaining];
      assert Flatten([remaining]) == remaining + "" == remaining;
    } else if remaining != "" {
      var at, head := NextCut(remaining, maximum).at, NextCut(remaining, maximum).part;
      var tail := Strip(remaining[at..]);
      CutIsProper(remaining, maximum);
      StripProperties(remaining[at..]);
      PartsProperties(tail, maximum);
      var rest := Parts(tail, maximum);
      assert Parts(remaining, maximum) == [head] + rest;
      InkFlatten(head, rest);
      assert remaining == remaining[..at] + remaining[at..];
      InkConcat(remaining[..at], remaining[at..]);
    }
  }

  lemma {:induction false} InkFlatten(head: string, rest: seq<string>)
    ensures Ink(Flatten([head] + rest)) == Ink(head) + Ink(Flatten(rest))
  {
    assert ([head] + rest)[1..] == rest;
    InkConcat(head, Flatten(rest));
  }

  /**
   For every text and limit: the parts are non-empty, trimmed and within the limit, there are none exactly when the
   text is blank, and all non-whitespace characters are kept in order.
   */
  lemma {:induction false} BoundedProperties(value: string, maximum: nat)
    requires 1 <= maximum
    ensures WellCut(Bounded(value, maximum), maximum)
    ensures Ink(Flatten(Bounded(value, maximum))) == Ink(value)
    ensures Bounded(value, maximum) == [] <==> AllSpace(value)
  {
    hide Parts;
    StripProperties(value);
    PartsProperties(Strip(value), maximum);
  }

  /** Every character of `a` occurs in `b`. */
  ghost predicate Within(a: string, b: string) {
    forall c :: c in a ==> c in b
  }

  lemma StripWithin(s: string)
    ensures Within(Strip(s), s)
  {
    hide StripLeft, StripRight;
    StripLeftProperties(s);
    StripRightProperties(StripLeft(s));
    forall c | c in Strip(s) ensures c in s {
      assert c in StripLeft(s);
    }
  }

  lemma SliceWithin(s: string, i: nat, j: nat)
    requires i <= j <= |s|
    ensures Within(s[i..j], s)
  {
  }

  lemma WithinTransitive(a: string, b: string, c: string)
    requires Within(a, b) && Within(b, c)
    ensures Within(a, c)
  {
  }

  lemma CutWithin(remaining: string, maximum: nat)
    requires 1 <= maximum < |remaining|
    ensures Within(NextCut(remaining, maximum).part, remaining)
    ensures Within(Strip(remaining[NextCut(remaining, maximum).at..]), remaining)
  {
    hide Strip, SplitPoint, Within;
    var at, cut := SplitPoint(remaining, maximum), NextCut(remaining, maximum);
    SliceWithin(remaining, 0, at);
    SliceWithin(remaining, 0, maximum);
    SliceWithin(remaining, cut.at, |remaining|);
    assert remaining[..at] == remaining[0..at] && remaining[..maximum] == remaining[0..maximum];
    StripWithin(remaining[..at]);
    StripWithin(remaining[cut.at..]);
    WithinTransitive(Strip(remaining[..at]), remaining[..at], remaining);
    WithinTransitive(Strip(remaining[cut.at..]), remaining[cut.at..], remaining);
  }

  /** No part contains a character that the text does not. */
  lemma {:induction false} PartsWithin(remaining: string, maximum: nat)
    requires 1 <= maximum
    ensures forall i :: 0 <= i < |Parts(remaining, maximum)| ==> Within(Parts(remaining, maximum)[i], remaining)
    decreases |remaining|
  {
    hide Strip, NextCut, Within;
    if remaining != "" && |remaining| <= maximum {
      SliceWithin(remaining, 0, |remaining|);
      assert remaining[0..|remaining|] == remaining;
    } else if remaining != "" {
      var cut := NextCut(remaining, maximum);
      var tail := Strip(remaining[cut.at..]);
      CutWithin(remaining, maximum);
      StripProperties(remaining[cut.at..]);
      PartsWithin(tail, maximum);
      assert Parts(remaining, maximum) == [cut.part] + Parts(tail, maximum);
      forall i | 0 <= i < |Parts(tail, maximum)| ensures Within(Parts(tail, maximum)[i], remaining) {
        WithinTransitive(Parts(tail, maximum)[i], tail, remaining);
      }
    }
  }

  lemma BoundedWithin(value: string, maximum: nat)
    requires 1 <= maximum
    ensures forall i :: 0 <= i < |Bounded(value, maximum)| ==> Within(Bounded(value, maximum)[i], value)
  {
    hide Parts, Strip, Within;
    StripWithin(value);
    PartsWithin(Strip(value), maximum);
    forall i | 0 <= i < |Bounded(value, maximum)| ensures Within(Bounded(value, maximum)[i], value) {
      WithinTransitive(Bounded(value, maximum)[i], Strip(value), value);
    }
  }

  /**
   Where a text that is too long is cut: at the last paragraph break in the second half of the window, else at the last line
   break there, else at the last space there, else at the limit.
   */
  ghost predicate CutsAt(text: string, maximum: nat, at: nat)
    requires maximum < |text|
  {
    var window, lower := text[..maximum + 1], maximum / 2;
    || LastBreak(window, "\n\n", lower, at)
    || (NoBreak(window, "\n\n", lower) && LastBreak(window, "\n", lower, at))
    || (NoBreak(window, "\n\n", lower) && NoBreak(window, "\n", lower) && LastBreak(window, " ", lower, at))
    || (NoBreak(window, "\n\n", lower) && NoBreak(window, "\n", lower) && NoBreak(window, " ", lower) && at == maximum)
  }

  /**
   A text within the limit is its own only part; a longer one is cut, its head is the first part, and its other parts are
   those of the rest.
   */
  lemma {:induction false} BoundedExactly(value: string, maximum: nat) returns (at: nat)
    requires 1 <= maximum
    ensures var text, parts := Strip(value), Bounded(value, maximum);
            if text == "" then parts == []
            else if |text| <= maximum then parts == [text]
            else
              && 1 <= at <= maximum && CutsAt(text, maximum, at)
              && parts == [Strip(text[..at])] + Bounded(text[at..], maximum)
  {
    hide Strip, SplitPoint, NextCut, LastBreak, NoBreak;
    var text := Strip(value);
    StripProperties(value);
    at := 1;
    if |text| <= maximum {
      LastPart(text, maximum);
    } else {
      at := NextCut(text, maximum).at;
      CutIsProper(text, maximum);
      PartsUnfold(text, maximum);
    }
  }

  /** How the parts of a text that is too long unfold. */
  lemma {:induction false} PartsUnfold(remaining: string, maximum: nat)
    requires 1 <= maximum < |remaining|
    ensures var cut := NextCut(remaining, maximum);
            && Parts(remaining, maximum) == [cut.part] + Parts(Strip(remaining[cut.at..]), maximum)
            && |Strip(remaining[cut.at..])| < |remaining|
  {
    hide Strip, NextCut;
    StripProperties(remaining[NextCut(remaining, maximum).at..]);
  }

  lemma {:induction false} LastPart(remaining: string, maximum: nat)
    requires 1 <= maximum && |remaining| <= maximum
    ensures Parts(remaining, maximum) == if remaining == "" then [] else [remaining]
  {
  }

  lemma Shifted(parts: seq<string>, part: string, rest: seq<string>)
    ensures parts + ([part] + rest) == parts + [part] + rest
  {
  }

  /** The splitting loop; it terminates because what remains gets shorter. */
  method Split(value: string, maximum: nat) returns (parts: seq<string>)
    requires 1 <= maximum
    ensures parts == Bounded(value, maximum)
    ensures WellCut(parts, maximum) && Ink(Flatten(parts)) == Ink(value)
  {
    hide Strip, Ink, NextCut, WellCut, Parts;
    BoundedProperties(value, maximum);
    var remaining := Strip(value);
    parts := [];
    assert [] + Parts(remaining, maximum) == Parts(remaining, maximum);
    while remaining != ""
      invariant Bounded(value, maximum) == parts + Parts(remaining, maximum)
      decreases |remaining|
    {
      if |remaining| <= maximum {
        LastPart(remaining, maximum);
        parts := parts + [remaining];
        return;
      }
      var cut := NextCut(remaining, maximum);
      PartsUnfold(remaining, maximum);
      Shifted(parts, cut.part, Parts(Strip(remaining[cut.at..]), maximum));
      parts := parts + [cut.part];
      remaining := Strip(remaining[cut.at..]);
    }
    LastPart(remaining, maximum);
    assert parts + [] == parts;
  }
}
