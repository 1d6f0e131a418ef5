/**
 The text forms a spreadsheet chunk is made of, each with its inverse: separated lists, decimal numbers and JSON
 strings (section 7 of RFC 8259, as written by a serializer that keeps non-ASCII characters).
 */
module Rendering {
  import opened Wrappers

  // ---------------------------------------------------------------- separated lists

  /** `sep.join(parts)` for a one-character separator. */
  function Join(parts: seq<string>, sep: char): string {
    if parts == [] then "" else if |parts| == 1 then parts[0] else parts[0] + [sep] + Join(parts[1..], sep)
  }

  function IndexOf(s: string, c: char): (i: nat)
    ensures i <= |s|
    ensures i < |s| ==> s[i] == c
    ensures forall j :: 0 <= j < i ==> s[j] != c
  {
    if s == "" || s[0] == c then 0 else 1 + IndexOf(s[1..], c)
  }

  /** `s.split(sep)`: always at least one piece. */
  function Split(s: string, sep: char): seq<string>
    decreases |s|
  {
    var i := IndexOf(s, sep);
    if i == |s| then [s] else [s[..i]] + Split(s[i + 1..], sep)
  }

  lemma {:induction false} IndexOfAfter(a: string, c: char, b: string)
    requires c !in a
    ensures IndexOf(a + [c] + b, c) == |a|
  {
    var s := a + [c] + b;
    assert s[|a|] == c;
    assert forall j :: 0 <= j < |a| ==> s[j] == a[j] && s[j] in a;
  }

  lemma {:induction false} SplitJoin(parts: seq<string>, sep: char)
    requires parts != [] && forall i :: 0 <= i < |parts| ==> sep !in parts[i]
    ensures Split(Join(parts, sep), sep) == parts
  {
    var s := Join(parts, sep);
    if |parts| == 1 {
      assert IndexOf(s, sep) == |s|;
    } else {
      var rest := Join(parts[1..], sep);
      IndexOfAfter(parts[0], sep, rest);
      assert s[..|parts[0]|] == parts[0];
      assert s[|parts[0]| + 1..] == rest;
      SplitJoin(parts[1..], sep);
    }
  }

  /** Joining neighbours first and then the results gives the same text. */
  lemma {:induction false} JoinConcat(a: seq<string>, b: seq<string>, sep: char)
    requires a != [] && b != []
    ensures Join(a + b, sep) == Join(a, sep) + [sep] + Join(b, sep)
  {
    if |a| == 1 {
      assert (a + b)[1..] == b;
    } else {
      assert (a + b)[1..] == a[1..] + b;
      JoinConcat(a[1..], b, sep);
    }
  }

  lemma {:induction false} JoinSnoc(parts: seq<string>, sep: char)
    requires |parts| > 1
    ensures Join(parts, sep) == Join(parts[..|parts| - 1], sep) + [sep] + parts[|parts| - 1]
  {
    var front, last := parts[..|parts| - 1], parts[|parts| - 1];
    assert parts == front + [last];
    JoinConcat(front, [last], sep);
  }

  /** How `Split` unfolds: the first piece, then the pieces of what follows the separator. */
  lemma {:induction false} SplitUnfolds(s: string, sep: char)
    ensures var i := IndexOf(s, sep);
            Split(s, sep) == if i == |s| then [s] else [s[..i]] + Split(s[i + 1..], sep)
  {
    hide IndexOf;
  }

  lemma {:induction false} JoinUnfolds(head: string, rest: seq<string>, sep: char)
    ensures Join([head] + rest, sep) == if rest == [] then head else head + [sep] + Join(rest, sep)
  {
    assert ([head] + rest)[1..] == rest;
  }

  lemma Rejoined(s: string, i: nat, sep: char)
    requires i < |s| && s[i] == sep
    ensures s[..i] + [sep] + s[i + 1..] == s
  {
  }

  /** Joining the pieces of a text gives back the text. */
  lemma {:induction false} SplitInverse(s: string, sep: char)
    ensures Split(s, sep) != [] && Join(Split(s, sep), sep) == s
    decreases |s|
  {
    hide Split, Join, IndexOf;
    var i := IndexOf(s, sep);
    SplitUnfolds(s, sep);
    if i == |s| {
      assert [s] + [] == [s];
      JoinUnfolds(s, [], sep);
    } else {
      var rest := Split(s[i + 1..], sep);
      SplitInverse(s[i + 1..], sep);
      JoinUnfolds(s[..i], rest, sep);
      Rejoined(s, i, sep);
    }
  }

  // ---------------------------------------------------------------- decimal numbers

  function Digit(d: nat): char
    requires d < 10
  {
    "0123456789"[d]
  }

  function Decimal(n: nat): (s: string)
    ensures s != "" && forall i :: 0 <= i < |s| ==> '0' <= s[i] <= '9'
  {
    if n < 10 then [Digit(n)] else Decimal(n / 10) + [Digit(n % 10)]
  }

  function ParseDecimal(s: string): nat {
    if s == "" then 0
    else
      var c := s[|s| - 1];
      10 * ParseDecimal(s[..|s| - 1]) + (if '0' <= c <= '9' then c as int - '0' as int else 0)
  }

  lemma {:induction false} DecimalInverse(n: nat)
    ensures ParseDecimal(Decimal(n)) == n
  {
    var s := Decimal(n);
    if n < 10 {
      assert s[..0] == "";
    } else {
      assert s[..|s| - 1] == Decimal(n / 10);
      DecimalInverse(n / 10);
    }
  }

  /** Decimals have no leading zero. */
  lemma {:induction false} DecimalLeads(n: nat)
    ensures n > 0 ==> Decimal(n)[0] != '0'
    ensures n < 10 ==> |Decimal(n)| == 1
  {
    if n >= 10 {
      DecimalLeads(n / 10);
    }
  }

  // ---------------------------------------------------------------- JSON strings

  function HexDigit(d: nat): char
    requires d < 16
  {
    "0123456789abcdef"[d]
  }

  function HexValue(c: char): nat {
    if '0' <= c <= '9' then c as int - '0' as int else if 'a' <= c <= 'f' then c as int - 'a' as int + 10 else 0
  }

  const QUOTE := '\"'
  const BACKSLASH := '\\'

  /** The short escapes, as pairs of the character and the letter after the backslash. */
  function ShortEscape(c: char): Option<char> {
    if c == QUOTE then Some(QUOTE)
    else if c == BACKSLASH then Some(BACKSLASH)
    else if c == '\n' then Some('n')
    else if c == '\r' then Some('r')
    else if c == '\t' then Some('t')
    else if c as int == 0x08 then Some('b')
    else if c as int == 0x0C then Some('f')
    else None
  }

  function Unescape(letter: char): char {
    match letter
    case 'n' => '\n'
    case 'r' => '\r'
    case 't' => '\t'
    case 'b' => 0x08 as char
    case 'f' => 0x0C as char
    case c => c
  }

  function Escape(c: char): string {
    if ShortEscape(c).Some? then [BACKSLASH, ShortEscape(c).value]
    else if c as int < 0x20 then [BACKSLASH, 'u', '0', '0', HexDigit(c as int / 16), HexDigit(c as int % 16)]
    else [c]
  }

  function EscapeAll(s: string): string {
    if s == "" then "" else Escape(s[0]) + EscapeAll(s[1..])
  }

  /** `json.dumps(s, ensure_ascii=False)` for a string. */
  function JsonString(s: string): string {
    [QUOTE] + EscapeAll(s) + [QUOTE]
  }

  /** Reads the characters of a JSON string up to the closing quote. */
  function ReadChars(s: string): Option<string>
    decreases |s|
  {
    if s == "" then None
    else if s[0] == QUOTE then (if |s| == 1 then Some("") else None)
    else if s[0] != BACKSLASH then Prepend(s[0], ReadChars(s[1..]))
    else if |s| < 2 then None
    else if s[1] != 'u' then Prepend(Unescape(s[1]), ReadChars(s[2..]))
    else if |s| < 6 then None
    else
      var code := 16 * HexValue(s[4]) + HexValue(s[5]);
      if s[2] != '0' || s[3] != '0' then None else Prepend(code as char, ReadChars(s[6..]))
  }

  function Prepend(c: char, rest: Option<string>): Option<string> {
    if rest.None? then None else Some([c] + rest.value)
  }

  function ParseJsonString(s: string): Option<string> {
    if s == "" || s[0] != QUOTE then None else ReadChars(s[1..])
  }

  lemma {:induction false} EscapeInverse(c: char, rest: string)
    ensures ReadChars(Escape(c) + rest) == Prepend(c, ReadChars(rest))
  {
    var s := Escape(c) + rest;
    if ShortEscape(c).Some? {
      assert s[2..] == rest;
    } else if c as int < 0x20 {
      assert s[6..] == rest;
      var n := c as int;
      assert HexValue(HexDigit(n / 16)) == n / 16 && HexValue(HexDigit(n % 16)) == n % 16;
    } else {
      assert s[1..] == rest;
    }
  }

  lemma {:induction false} ReadEscaped(v: string)
    ensures ReadChars(EscapeAll(v) + [QUOTE]) == Some(v)
  {
    if v == "" {
      assert EscapeAll(v) + [QUOTE] == [QUOTE];
    } else {
      assert v == [v[0]] + v[1..];
      assert EscapeAll(v) + [QUOTE] == Escape(v[0]) + (EscapeAll(v[1..]) + [QUOTE]);
      EscapeInverse(v[0], EscapeAll(v[1..]) + [QUOTE]);
      ReadEscaped(v[1..]);
    }
  }

  /** Parsing a rendered JSON string gives back the value. */
  lemma JsonInverse(v: string)
    ensures ParseJsonString(JsonString(v)) == Some(v)
  {
    ReadEscaped(v);
    assert JsonString(v)[1..] == EscapeAll(v) + [QUOTE];
  }

  /** Text without control characters, in particular without tab and newline. */
  predicate Printable(s: string) {
    forall i :: 0 <= i < |s| ==> s[i] as int >= 0x20
  }

  lemma {:induction false} EscapedIsPrintable(v: string)
    ensures Printable(EscapeAll(v))
  {
    if v != "" {
      EscapedIsPrintable(v[1..]);
      assert Printable(Escape(v[0]));
    }
  }

  /** A rendered JSON string has no control character and no whitespace at its ends. */
  lemma JsonIsPrintable(v: string)
    ensures Printable(JsonString(v)) && '\t' !in JsonString(v) && '\n' !in JsonString(v)
    ensures |JsonString(v)| >= 2 && JsonString(v)[0] == QUOTE && JsonString(v)[|JsonString(v)| - 1] == QUOTE
  {
    EscapedIsPrintable(v);
  }

  /** Text without quotes, backslashes and control characters is only put in quotes. */
  lemma {:induction false} JsonOfPlain(s: string)
    requires forall i :: 0 <= i < |s| ==> s[i] as int >= 0x20 && s[i] != QUOTE && s[i] != BACKSLASH
    ensures EscapeAll(s) == s && JsonString(s) == [QUOTE] + s + [QUOTE]
  {
    if s != "" {
      JsonOfPlain(s[1..]);
      assert s == [s[0]] + s[1..];
    }
  }
}
