/** The few string operations of the Go standard library that the runtime
    relies on, over sequences of Unicode characters. */
module Text {

  /** The characters that unicode.IsSpace accepts. */
  predicate IsSpace(c: char) {
    c == ' ' || '\U{9}' <= c <= '\r' || c == '\U{85}' || c == '\U{A0}' || c == '\U{1680}' ||
    '\U{2000}' <= c <= '\U{200A}' || c == '\U{2028}' || c == '\U{2029}' || c == '\U{202F}' ||
    c == '\U{205F}' || c == '\U{3000}'
  }

  predicate IsBlank(c: char) {
    c == ' ' || c == '\t'
  }

  function TrimEnd(p: char -> bool, s: string): string {
    if s != "" && p(s[|s| - 1]) then TrimEnd(p, s[..|s| - 1]) else s
  }

  function TrimStart(p: char -> bool, s: string): string {
    if s != "" && p(s[0]) then TrimStart(p, s[1..]) else s
  }

  /** strings.TrimSpace */
  function TrimSpace(s: string): string {
    TrimStart(IsSpace, TrimEnd(IsSpace, s))
  }

  /** strings.TrimRight(s, " \t") */
  function TrimBlanks(s: string): string {
    TrimEnd(IsBlank, s)
  }

  /** A nonempty string that TrimSpace leaves alone. */
  predicate Trimmed(s: string) {
    s != "" && !IsSpace(s[0]) && !IsSpace(s[|s| - 1])
  }

  lemma TrimmedFixed(s: string)
    requires Trimmed(s)
    ensures TrimSpace(s) == s
  {
  }

  lemma {:induction false} TrimmedAtEnd(s: string)
    ensures var t := TrimEnd(IsSpace, s); t == "" || !IsSpace(t[|t| - 1])
  {
    if s != "" && IsSpace(s[|s| - 1]) {
      TrimmedAtEnd(s[..|s| - 1]);
    }
  }

  lemma {:induction false} TrimmedAtStart(s: string)
    requires s == "" || !IsSpace(s[|s| - 1])
    ensures var t := TrimStart(IsSpace, s); t == "" || Trimmed(t)
  {
    if s != "" && IsSpace(s[0]) {
      TrimmedAtStart(s[1..]);
    }
  }

  /** Trimming twice is trimming once. */
  lemma TrimSpaceTwice(s: string)
    ensures TrimSpace(TrimSpace(s)) == TrimSpace(s)
  {
    TrimmedAtEnd(s);
    TrimmedAtStart(TrimEnd(IsSpace, s));
  }

  lemma {:induction false} TrimBlanksThenSpace(s: string)
    ensures TrimEnd(IsSpace, TrimBlanks(s)) == TrimEnd(IsSpace, s)
  {
    if s != "" && IsBlank(s[|s| - 1]) {
      TrimBlanksThenSpace(s[..|s| - 1]);
    }
  }

  /** strings.Contains */
  predicate Contains(s: string, sub: string) {
    sub <= s || (s != "" && Contains(s[1..], sub))
  }

  lemma {:induction false} ContainedAt(s: string, sub: string) returns (i: nat)
    requires Contains(s, sub)
    ensures i + |sub| <= |s| && s[i..i + |sub|] == sub
  {
    if sub <= s {
      i := 0;
    } else {
      i := ContainedAt(s[1..], sub);
      i := i + 1;
    }
  }

  lemma {:induction false} ContainsInside(a: string, b: string, c: string)
    ensures Contains(a + b + c, b)
  {
    if a == "" {
      assert a + b + c == b + c;
    } else {
      ContainsInside(a[1..], b, c);
      assert (a + b + c)[1..] == a[1..] + b + c;
    }
  }

  /** The length of the UTF-8 encoding. */
  function ByteLength(s: string): nat {
    if s == "" then 0
    else
      var c := s[|s| - 1];
      var width := if c < '\U{80}' then 1 else if c < '\U{800}' then 2 else if c < '\U{10000}' then 3 else 4;
      ByteLength(s[..|s| - 1]) + width
  }

  function ReplaceCrLf(s: string): string {
    if s == "" then ""
    else if |s| >= 2 && s[0] == '\r' && s[1] == '\n' then "\n" + ReplaceCrLf(s[2..])
    else [s[0]] + ReplaceCrLf(s[1..])
  }

  function ReplaceCr(s: string): string {
    if s == "" then "" else [if s[0] == '\r' then '\n' else s[0]] + ReplaceCr(s[1..])
  }

  /** Every line end, CRLF and CR included, becomes a newline. */
  function NormalizeNewlines(s: string): string {
    ReplaceCr(ReplaceCrLf(s))
  }

  lemma {:induction false} NormalizedFixed(s: string)
    requires '\r' !in s
    ensures ReplaceCrLf(s) == s && ReplaceCr(s) == s
  {
    if s != "" {
      assert forall c :: c in s[1..] ==> c in s;
      NormalizedFixed(s[1..]);
      assert s == [s[0]] + s[1..];
    }
  }

  /** strings.Split(s, "\n"): always at least one piece. */
  function SplitLines(s: string): (lines: seq<string>)
    ensures lines != []
    ensures forall i :: 0 <= i < |lines| ==> '\n' !in lines[i]
  {
    if s == "" then [""]
    else
      var rest := SplitLines(s[1..]);
      if s[0] == '\n' then [""] + rest else [[s[0]] + rest[0]] + rest[1..]
  }

  /** strings.Join(lines, "\n") */
  function JoinLines(lines: seq<string>): string {
    if lines == [] then ""
    else if |lines| == 1 then lines[0]
    else lines[0] + "\n" + JoinLines(lines[1..])
  }

  lemma {:induction false} SplitOneLine(s: string)
    requires '\n' !in s
    ensures SplitLines(s) == [s]
  {
    if s != "" {
      SplitOneLine(s[1..]);
      assert s == [s[0]] + s[1..];
    }
  }

  lemma {:induction false} SplitFirstLine(first: string, rest: string)
    requires '\n' !in first
    ensures SplitLines(first + "\n" + rest) == [first] + SplitLines(rest)
  {
    var s := first + "\n" + rest;
    if first == "" {
      assert s == ['\n'] + rest;
      assert s[1..] == rest;
    } else {
      SplitFirstLine(first[1..], rest);
      assert s[1..] == first[1..] + "\n" + rest;
      assert first == [first[0]] + first[1..];
    }
  }

  /** Splitting undoes joining, for lines without a newline. */
  lemma {:induction false} SplitJoin(lines: seq<string>)
    requires lines != []
    requires forall i :: 0 <= i < |lines| ==> '\n' !in lines[i]
    ensures SplitLines(JoinLines(lines)) == lines
  {
    if |lines| == 1 {
      SplitOneLine(lines[0]);
    } else {
      SplitJoin(lines[1..]);
      SplitFirstLine(lines[0], JoinLines(lines[1..]));
    }
  }

  // ----- New strings

  /** There is always a longer string. */
  ghost function Longer(ids: set<string>): (id: string)
    ensures id != "" && id !in ids && forall s :: s in ids ==> |s| < |id|
  {
    if ids == {} then "x"
    else
      var s :| s in ids;
      var longest := Longer(ids - {s});
      if |longest| <= |s| then s + "x" else longest
  }

  /** A string longer than every string of `ids`. */
  method NewString(ids: set<string>) returns (id: string)
    ensures id != "" && id !in ids
  {
    id := "x";
    var rest := ids;
    while rest != {}
      invariant rest <= ids && id != ""
      invariant forall s :: s in ids - rest ==> |s| < |id|
      decreases rest
    {
      var s :| s in rest;
      if |id| <= |s| {
        id := s + "x";
      }
      rest := rest - {s};
    }
  }
}
