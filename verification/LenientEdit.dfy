/** The lenient half of the edit tool: the lines of a text with their spans, the
    search by trimmed lines, and the replacement of what was found. */
module LenientEdit {
  import opened Messages
  import opened PatchSplice
  import opened Splice
  import opened Text

  /** A line without its line end, and where it stands in the text. */
  datatype EditLine = EditLine(text: string, start: nat, end: nat)

  // ----- Lines

  predicate IsLineEnd(s: string) {
    s == "\r" || s == "\n" || s == "\r\n"
  }

  predicate NoLineEnd(s: string) {
    '\r' !in s && '\n' !in s
  }

  /** What follows the last line: its line end, or nothing if the text stops. */
  predicate EndsLine(s: string, last: EditLine, pos: nat) {
    && last.start <= last.end <= pos <= |s|
    && (IsLineEnd(s[last.end..pos]) || (last.end == pos == |s| && last.start < last.end))
    && (s[last.end..pos] == "\r" && pos < |s| ==> s[pos] != '\n')
  }

  /** The lines and their line ends cover s[..pos] without gap or overlap. */
  ghost predicate Tiles(s: string, lines: seq<EditLine>, pos: nat) {
    if lines == [] then pos == 0
    else
      var last := lines[|lines| - 1];
      && EndsLine(s, last, pos) && last.text == s[last.start..last.end] && NoLineEnd(last.text)
      && Tiles(s, lines[..|lines| - 1], last.start)
  }

  lemma TilesSnoc(s: string, lines: seq<EditLine>, start: nat, end: nat, pos: nat)
    requires Tiles(s, lines, start) && start <= end <= |s| && NoLineEnd(s[start..end])
    requires EndsLine(s, EditLine(s[start..end], start, end), pos)
    ensures Tiles(s, lines + [EditLine(s[start..end], start, end)], pos)
  {
    assert (lines + [EditLine(s[start..end], start, end)])[..|lines|] == lines;
  }

  /** splitEditLines */
  method SplitEditLines(s: string) returns (lines: seq<EditLine>)
    ensures Tiles(s, lines, |s|)
  {
    lines := [];
    var start, i := 0, 0;
    while i < |s|
      invariant 0 <= start <= i <= |s| && Tiles(s, lines, start) && NoLineEnd(s[start..i])
      decreases |s| - i
    {
      assert s[start..i + 1] == s[start..i] + [s[i]];
      if s[i] == '\r' || s[i] == '\n' {
        var end := i;
        i := i + 1;
        if s[end] == '\r' && i < |s| && s[i] == '\n' {
          i := i + 1;
          assert s[end..i] == "\r\n";
        } else {
          assert s[end..i] == [s[end]];
        }
        TilesSnoc(s, lines, start, end, i);
        lines := lines + [EditLine(s[start..end], start, end)];
        start := i;
      } else {
        i := i + 1;
      }
    }
    if start < |s| {
      assert s[start..] == s[start..|s|] && s[|s|..|s|] == "";
      TilesSnoc(s, lines, start, |s|, |s|);
      lines := lines + [EditLine(s[start..], start, |s|)];
    }
  }

  /** Each line followed by what stands after it. */
  function Glue(lines: seq<EditLine>, ends: seq<string>): string
    requires |ends| == |lines|
  {
    if lines == [] then ""
    else
      var n := |lines| - 1;
      Glue(lines[..n], ends[..n]) + lines[n].text + ends[n]
  }

  /** The lines and their line ends put together again are the text. */
  lemma {:induction false} TilesRebuild(s: string, lines: seq<EditLine>, pos: nat) returns (ends: seq<string>)
    requires Tiles(s, lines, pos)
    ensures |ends| == |lines| && pos <= |s| && Glue(lines, ends) == s[..pos]
    ensures forall i :: 0 <= i < |ends| ==> IsLineEnd(ends[i]) || (i == |ends| - 1 && ends[i] == "" && pos == |s|)
    ensures forall i :: 0 <= i < |lines| ==> NoLineEnd(lines[i].text)
  {
    if lines == [] {
      ends := [];
    } else {
      var n := |lines| - 1;
      var last := lines[n];
      var before := TilesRebuild(s, lines[..n], last.start);
      assert last.start < |s|;
      ends := before + [s[last.end..pos]];
      assert ends[..n] == before;
      assert s[..pos] == s[..last.start] + s[last.start..last.end] + s[last.end..pos];
    }
  }

  lemma {:induction false} TilesOrdered(s: string, lines: seq<EditLine>, pos: nat, i: nat, j: nat)
    requires Tiles(s, lines, pos) && i <= j < |lines|
    ensures lines[i].start <= lines[i].end <= lines[j].end <= pos <= |s|
    ensures i < j ==> lines[i].end < lines[j].start
    decreases |lines|
  {
    var n := |lines| - 1;
    if j < n {
      TilesOrdered(s, lines[..n], lines[n].start, i, j);
    } else if i < j {
      TilesOrdered(s, lines[..n], lines[n].start, i, n - 1);
      EndingIs(s, lines[n], pos);
      assert EndsLine(s, lines[n - 1], lines[n].start) && IsLineEnd(s[lines[n - 1].end..lines[n].start]);
    }
  }

  lemma {:induction false} LineTexts(s: string, lines: seq<EditLine>, pos: nat, i: nat)
    requires Tiles(s, lines, pos) && i < |lines|
    ensures lines[i].start <= lines[i].end <= |s| && lines[i].text == s[lines[i].start..lines[i].end]
    decreases |lines|
  {
    var n := |lines| - 1;
    if i < n {
      LineTexts(s, lines[..n], lines[n].start, i);
    }
  }

  // ----- The search

  /** In the middle of a text lines stop behind a line end, never inside one. */
  lemma LineEndBefore(s: string, lines: seq<EditLine>, pos: nat)
    requires Tiles(s, lines, pos) && 0 < pos < |s|
    ensures s[pos - 1] == '\n' || (s[pos - 1] == '\r' && s[pos] != '\n')
  {
    var last := lines[|lines| - 1];
    var ending := s[last.end..pos];
    assert s[pos - 1] == ending[|ending| - 1];
  }

  lemma NoEndInside(s: string, start: nat, end: nat)
    requires start <= end <= |s| && NoLineEnd(s[start..end])
    ensures forall k :: start <= k < end ==> s[k] != '\r' && s[k] != '\n'
  {
    forall k | start <= k < end
      ensures s[k] != '\r' && s[k] != '\n'
    {
      assert s[start..end][k - start] == s[k];
    }
  }

  /** The one or two characters of a line end. */
  lemma EndingIs(s: string, last: EditLine, pos: nat)
    requires EndsLine(s, last, pos)
    ensures last.start < |s| && pos <= last.end + 2
    ensures last.end < pos ==> s[pos - 1] == '\n' || s[pos - 1] == '\r'
    ensures last.end + 2 == pos ==> s[last.end] == '\r' && s[pos - 1] == '\n'
  {
    var ending := s[last.end..pos];
    assert last.end < pos ==> s[pos - 1] == ending[|ending| - 1] && s[last.end] == ending[0];
  }

  lemma LastLineOnce(s: string, before: seq<EditLine>, a: EditLine, b: EditLine, pos: nat)
    requires EndsLine(s, a, pos) && EndsLine(s, b, pos) && NoLineEnd(s[a.start..a.end]) && NoLineEnd(s[b.start..b.end])
    requires Tiles(s, before, a.start)
    ensures a.end <= b.end && (a.end == b.end ==> a.start <= b.start)
  {
    EndingIs(s, a, pos);
    EndingIs(s, b, pos);
    NoEndInside(s, a.start, a.end);
    NoEndInside(s, b.start, b.end);
    if 0 < a.start {
      LineEndBefore(s, before, a.start);
    }
  }

  lemma NonemptyTiles(s: string, lines: seq<EditLine>, pos: nat)
    requires Tiles(s, lines, pos)
    ensures lines != [] ==> 0 < pos
  {
  }

  /** A text has only one division into lines. */
  lemma {:induction false} TilesOnce(s: string, a: seq<EditLine>, b: seq<EditLine>, pos: nat)
    requires Tiles(s, a, pos) && Tiles(s, b, pos)
    ensures a == b
    decreases |a|
  {
    hide EndsLine, NoLineEnd;
    NonemptyTiles(s, a, pos);
    NonemptyTiles(s, b, pos);
    if a != [] && b != [] {
      var m, n := |a| - 1, |b| - 1;
      LastLineOnce(s, a[..m], a[m], b[n], pos);
      LastLineOnce(s, b[..n], b[n], a[m], pos);
      TilesOnce(s, a[..m], b[..n], a[m].start);
      assert a == a[..m] + [a[m]] && b == b[..n] + [b[n]];
    }
  }

  function Texts(lines: seq<EditLine>): (r: seq<string>)
    ensures |r| == |lines|
  {
    seq(|lines|, i requires 0 <= i < |lines| => lines[i].text)
  }

  /** `starts` are all the lines at which the pattern matches, in order. */
  ghost predicate AllMatches(level: Level, texts: seq<string>, pattern: seq<string>, starts: seq<nat>) {
    && (forall i, j :: 0 <= i < j < |starts| ==> starts[i] < starts[j])
    && (forall i: nat :: i in starts <==> MatchesAt(level, texts, pattern, i))
  }

  /** `starts` are the matches of the strictest lenient matcher that matches. */
  ghost predicate StrictestMatches(level: Level, texts: seq<string>, pattern: seq<string>, starts: seq<nat>) {
    && 1 <= level && starts != [] && AllMatches(level, texts, pattern, starts)
    && forall l: Level :: 1 <= l < level ==> MatchesNowhere(l, texts, pattern, 0)
  }

  lemma BothEmpty(a: seq<nat>, b: seq<nat>)
    requires forall x :: x in b ==> x in a
    ensures a == [] ==> b == []
  {
    if b != [] {
      assert b[0] in b;
    }
  }

  lemma {:induction false} SameStarts(a: seq<nat>, b: seq<nat>)
    requires forall i, j :: 0 <= i < j < |a| ==> a[i] < a[j]
    requires forall i, j :: 0 <= i < j < |b| ==> b[i] < b[j]
    requires forall x :: x in a <==> x in b
    ensures a == b
  {
    if a == [] || b == [] {
      BothEmpty(a, b);
      BothEmpty(b, a);
    } else {
      var m, n := |a| - 1, |b| - 1;
      assert a[m] in a && b[n] in b;
      assert a[m] == b[n];
      forall x
        ensures x in a[..m] <==> x in b[..n]
      {
        assert x in a[..m] <==> x in a && x != a[m];
        assert x in b[..n] <==> x in b && x != b[n];
      }
      SameStarts(a[..m], b[..n]);
      assert a == a[..m] + [a[m]] && b == b[..n] + [b[n]];
    }
  }

  /** What is matched, and by which matcher, is determined. */
  lemma StrictestOnce(
    texts: seq<string>, pattern: seq<string>, k: Level, a: seq<nat>, l: Level, b: seq<nat>)
    requires StrictestMatches(k, texts, pattern, a) && StrictestMatches(l, texts, pattern, b)
    ensures k == l && a == b
  {
    hide MatchesAt;
    assert a[0] in a && b[0] in b;
    MatchFits(k, texts, pattern, a[0]);
    MatchFits(l, texts, pattern, b[0]);
    assert k < l ==> MatchesNowhere(k, texts, pattern, 0);
    assert l < k ==> MatchesNowhere(l, texts, pattern, 0);
    assert forall x :: x in a <==> x in b;
    SameStarts(a, b);
  }

  /** findLenientEditMatches: all the matches of the strictest of the three
      lenient matchers that matches at all. */
  method FindLenientEditMatches(lines: seq<EditLine>, pattern: seq<string>) returns (level: Level, starts: seq<nat>)
    requires pattern != []
    ensures starts == [] ==> MatchesNowhere(3, Texts(lines), pattern, 0)
    ensures starts != [] ==> StrictestMatches(level, Texts(lines), pattern, starts)
  {
    hide MatchesAt;
    var texts := Texts(lines);
    var l := 1;
    while l < 4
      invariant 1 <= l <= 4
      invariant forall k: Level :: 1 <= k < l ==> MatchesNowhere(k, texts, pattern, 0)
    {
      starts := MatchStarts(l, texts, pattern);
      if starts != [] {
        return l, starts;
      }
      NoStarts(l, texts, pattern);
      l := l + 1;
    }
    level, starts := 3, [];
  }

  method MatchStarts(level: Level, texts: seq<string>, pattern: seq<string>) returns (starts: seq<nat>)
    requires pattern != []
    ensures AllMatches(level, texts, pattern, starts)
  {
    starts := [];
    var start: nat := 0;
    while start + |pattern| <= |texts|
      invariant forall i, j :: 0 <= i < j < |starts| ==> starts[i] < starts[j]
      invariant forall i: nat :: i in starts <==> i < start && MatchesAt(level, texts, pattern, i)
      decreases |texts| - start
    {
      var matched := Matches(level, texts, pattern, start);
      if matched {
        assert forall i :: 0 <= i < |starts| ==> starts[i] in starts;
        starts := starts + [start];
      }
      start := start + 1;
    }
  }

  lemma NoStarts(level: Level, texts: seq<string>, pattern: seq<string>)
    requires AllMatches(level, texts, pattern, [])
    ensures MatchesNowhere(level, texts, pattern, 0)
  {
    hide MatchesAt;
    assert forall i: nat :: i !in [];
  }

  // ----- The replacement

  /** The matches as replacements of the text. */
  function Spans(lines: seq<EditLine>, starts: seq<nat>, n: nat, put: string): (r: seq<Replacement<char>>)
    requires 0 < n && forall k :: 0 <= k < |starts| ==> starts[k] + n <= |lines|
    requires forall k :: 0 <= k < |starts| ==> lines[starts[k]].start <= lines[starts[k] + n - 1].end
    ensures |r| == |starts|
  {
    seq(|starts|, k requires 0 <= k < |starts| =>
      Replacement(lines[starts[k]].start, lines[starts[k] + n - 1].end - lines[starts[k]].start, put))
  }

  lemma SpansFit(content: string, lines: seq<EditLine>, starts: seq<nat>, n: nat)
    requires Tiles(content, lines, |content|) && 0 < n && forall k :: 0 <= k < |starts| ==> starts[k] + n <= |lines|
    ensures forall k :: 0 <= k < |starts| ==> lines[starts[k]].start <= lines[starts[k] + n - 1].end <= |content|
  {
    hide Tiles;
    forall k | 0 <= k < |starts|
      ensures lines[starts[k]].start <= lines[starts[k] + n - 1].end <= |content|
    {
      TilesOrdered(content, lines, |content|, starts[k], starts[k] + n - 1);
    }
  }

  /** A match of `n` lines at line `a` ends before the one at line `b` begins.
      An empty line may belong to both: there is nothing in it to replace. */
  predicate Apart(lines: seq<EditLine>, n: nat, a: nat, b: nat)
    requires b < |lines|
  {
    a + n <= b || (a + n == b + 1 && lines[b].text == "")
  }

  lemma PairApart(content: string, lines: seq<EditLine>, n: nat, a: nat, b: nat)
    requires Tiles(content, lines, |content|) && 0 < n && a < b && a + n <= |lines| && b < |lines|
    ensures lines[a + n - 1].end <= lines[b].start <==> Apart(lines, n, a, b)
  {
    hide Tiles;
    var last := a + n - 1;
    TilesOrdered(content, lines, |content|, last, last);
    TilesOrdered(content, lines, |content|, b, b);
    LineTexts(content, lines, |content|, b);
    if last < b {
      TilesOrdered(content, lines, |content|, last, b);
    } else if b < last {
      TilesOrdered(content, lines, |content|, b, last);
    }
  }

  ghost predicate AllApart(lines: seq<EditLine>, n: nat, starts: seq<nat>)
    requires forall k :: 0 <= k < |starts| ==> starts[k] < |lines|
  {
    forall i, j :: 0 <= i < j < |starts| && j == i + 1 ==> Apart(lines, n, starts[i], starts[j])
  }

  /** Matches of `n` lines do not overlap if and only if each begins at least `n`
      lines after the one before it, or shares no more than an empty line. */
  lemma SpansApart(content: string, lines: seq<EditLine>, starts: seq<nat>, n: nat, put: string)
    requires Tiles(content, lines, |content|) && 0 < n && forall k :: 0 <= k < |starts| ==> starts[k] + n <= |lines|
    requires forall k :: 0 <= k < |starts| ==> lines[starts[k]].start <= lines[starts[k] + n - 1].end
    requires forall i, j :: 0 <= i < j < |starts| ==> starts[i] < starts[j]
    ensures OneAfterAnother(|content|, Spans(lines, starts, n, put)) <==> AllApart(lines, n, starts)
  {
    hide Tiles, Apart, Spans, AllApart, OneAfterAnother;
    var spans := Spans(lines, starts, n, put);
    SpanPairs(content, lines, starts, n, put);
    if AllApart(lines, n, starts) {
      PairsApart(lines, n, starts);
      assert OneAfterAnother(|content|, spans) by { InOrder(|content|, spans); }
    }
    if OneAfterAnother(|content|, spans) {
      InOrder(|content|, spans);
      NeighboursApart(lines, n, starts);
    }
  }

  lemma InOrder(n: nat, reps: seq<Replacement<char>>)
    requires forall i :: 0 <= i < |reps| ==> reps[i].start + reps[i].oldLen <= n
    ensures OneAfterAnother(n, reps) <==>
      forall i, j :: 0 <= i < j < |reps| ==> reps[i].start + reps[i].oldLen <= reps[j].start
  {
  }

  lemma NeighboursApart(lines: seq<EditLine>, n: nat, starts: seq<nat>)
    requires forall k :: 0 <= k < |starts| ==> starts[k] < |lines|
    requires forall i, j :: 0 <= i < j < |starts| ==> Apart(lines, n, starts[i], starts[j])
    ensures AllApart(lines, n, starts)
  {
  }

  lemma SpanPairs(content: string, lines: seq<EditLine>, starts: seq<nat>, n: nat, put: string)
    requires Tiles(content, lines, |content|) && 0 < n && forall k :: 0 <= k < |starts| ==> starts[k] + n <= |lines|
    requires forall k :: 0 <= k < |starts| ==> lines[starts[k]].start <= lines[starts[k] + n - 1].end
    requires forall i, j :: 0 <= i < j < |starts| ==> starts[i] < starts[j]
    ensures var spans := Spans(lines, starts, n, put);
      && (forall i :: 0 <= i < |spans| ==> spans[i].start + spans[i].oldLen <= |content|)
      && (forall i, j :: 0 <= i < j < |spans| ==>
            (spans[i].start + spans[i].oldLen <= spans[j].start <==> Apart(lines, n, starts[i], starts[j])))
  {
    hide Tiles, Apart;
    SpansFit(content, lines, starts, n);
    forall i, j | 0 <= i < j < |starts|
      ensures lines[starts[i] + n - 1].end <= lines[starts[j]].start <==> Apart(lines, n, starts[i], starts[j])
    {
      PairApart(content, lines, n, starts[i], starts[j]);
    }
  }

  lemma PairsApart(lines: seq<EditLine>, n: nat, starts: seq<nat>)
    requires forall k :: 0 <= k < |starts| ==> starts[k] < |lines|
    requires forall i, j :: 0 <= i < j < |starts| ==> starts[i] < starts[j]
    requires AllApart(lines, n, starts)
    ensures forall i, j :: 0 <= i < j < |starts| ==> Apart(lines, n, starts[i], starts[j])
  {
    forall i, j | 0 <= i < j < |starts|
      ensures Apart(lines, n, starts[i], starts[j])
    {
      var k := i + 1;
      assert Apart(lines, n, starts[i], starts[k]);
      assert k < j ==> starts[k] < starts[j];
    }
  }

  /** The replacements put into the text from the last to the first; None where
      a slice would go beyond the end of the text. */
  function Cuts(text: string, reps: seq<Replacement<char>>): Option<string>
    decreases |reps|
  {
    if reps == [] then Some(text)
    else
      var r := reps[|reps| - 1];
      if r.start + r.oldLen > |text| then None else Cuts(SpliceOne(text, r), reps[..|reps| - 1])
  }

  /** As long as the replacements from `k` on left enough of the text, those
      before fit into it. */
  lemma {:induction false} CutsFit(content: string, reps: seq<Replacement<char>>, k: nat, text: string)
    requires OneAfterAnother(|content|, reps) && k <= |reps| && Boundary(content, reps[k..]) <= |text|
    ensures Cuts(text, reps[..k]) == Some(Backward(text, reps[..k]))
    decreases k
  {
    if k > 0 {
      var r := reps[k - 1];
      assert k < |reps| ==> reps[k..][0] == reps[k];
      assert reps[..k][..k - 1] == reps[..k - 1] && reps[k - 1..][0] == r;
      CutsFit(content, reps, k - 1, SpliceOne(text, r));
    }
  }

  /** Replacements that do not overlap are made all at once. */
  lemma CutsAtOnce(content: string, reps: seq<Replacement<char>>)
    requires OneAfterAnother(|content|, reps)
    ensures Cuts(content, reps) == Some(Forward(content, reps, 0))
  {
    assert reps[..|reps|] == reps && reps[|reps|..] == [];
    CutsFit(content, reps, |reps|, content);
    BackwardIsForward(content, reps);
  }

  /** How much longer a text becomes by the replacements. */
  function Growth(reps: seq<Replacement<char>>): int
    decreases |reps|
  {
    if reps == [] then 0
    else |reps[0].newItems| - reps[0].oldLen + Growth(reps[1..])
  }

  /** A replacement that does not fit into what those behind it left. */
  ghost predicate Overruns(n: nat, reps: seq<Replacement<char>>, k: nat)
    requires k < |reps|
  {
    reps[k].start + reps[k].oldLen > n + Growth(reps[k + 1..])
  }

  /** The source panics if and only if, for some match, the text that the later
      matches left is too short to hold it. Otherwise the matches are replaced one
      after the other from the back. */
  lemma {:induction false} CutsExactly(n: nat, reps: seq<Replacement<char>>, k: nat, text: string)
    requires k <= |reps| && |text| == n + Growth(reps[k..])
    ensures Cuts(text, reps[..k]) == None <==> exists i :: 0 <= i < k && Overruns(n, reps, i)
    ensures Cuts(text, reps[..k]) != None ==> Cuts(text, reps[..k]) == Some(Backward(text, reps[..k]))
    decreases k
  {
    if k > 0 {
      var r := reps[k - 1];
      assert reps[k - 1..][0] == r && reps[k - 1..][1..] == reps[k..];
      assert reps[..k][..k - 1] == reps[..k - 1] && reps[..k][k - 1] == r;
      if r.start + r.oldLen > |text| {
        assert Overruns(n, reps, k - 1);
      } else {
        assert !Overruns(n, reps, k - 1);
        CutsExactly(n, reps, k - 1, SpliceOne(text, r));
      }
    }
  }

  /** applyLenientEditMatches: every match from the last to the first, or the
      first one only. None is where the source panics. */
  method ApplyLenientEditMatches(content: string, reps: seq<Replacement<char>>, replaceAll: bool)
    returns (updated: Option<string>)
    requires forall i :: 0 <= i < |reps| ==> reps[i].start + reps[i].oldLen <= |content|
    ensures updated == Cuts(content, if replaceAll then reps else reps[..Min(1, |reps|)])
    ensures updated == None <==> replaceAll && exists i :: 0 <= i < |reps| && Overruns(|content|, reps, i)
    ensures updated != None && replaceAll ==> updated.value == Backward(content, reps)
  {
    if |reps| == 0 {
      return Some(content);
    }
    if !replaceAll {
      var r := reps[0];
      assert reps[..1] == [r] && [r][..0] == [];
      return Some(content[..r.start] + r.newItems + content[r.start + r.oldLen..]);
    }
    updated := CutAll(content, reps);
    assert reps[..|reps|] == reps && reps[|reps|..] == [];
    CutsExactly(|content|, reps, |reps|, content);
  }

  method CutAll(content: string, reps: seq<Replacement<char>>) returns (updated: Option<string>)
    ensures updated == Cuts(content, reps)
  {
    var text := content;
    var k := |reps|;
    assert reps[..k] == reps;
    while k > 0
      invariant k <= |reps| && Cuts(text, reps[..k]) == Cuts(content, reps)
    {
      var r := reps[k - 1];
      assert reps[..k][..k - 1] == reps[..k - 1] && reps[..k][k - 1] == r;
      if r.start + r.oldLen > |text| {
        return None;
      }
      text := text[..r.start] + r.newItems + text[r.start + r.oldLen..];
      k := k - 1;
    }
    updated := Some(text);
  }

  datatype Outcome = NotFound | Ambiguous | Edited(text: string) | Panics

  /** What an edit does, given the lines of the text and of the old string, and
      what was matched. */
  ghost predicate Edits(
    content: string, put: string, replaceAll: bool, r: Outcome,
    lines: seq<EditLine>, pattern: seq<string>, level: Level, starts: seq<nat>)
  {
    if starts == [] then
      r == NotFound && (pattern == [] || MatchesNowhere(3, Texts(lines), pattern, 0))
    else
      && StrictestMatches(level, Texts(lines), pattern, starts) && MatchesInside(lines, pattern, starts)
      && r == if |starts| > 1 && !replaceAll then Ambiguous else Cut(content, Spans(lines, starts, |pattern|, put))
  }

  function Cut(content: string, reps: seq<Replacement<char>>): Outcome {
    match Cuts(content, reps)
    case None => Panics
    case Some(text) => Edited(text)
  }

  /** The lenient part of the edit tool, for an old string that does not occur
      as it is. */
  method EditLenient(content: string, oldString: string, newString: string, replaceAll: bool) returns (r: Outcome)
    ensures exists lines, oldLines, level: Level, starts ::
      && Tiles(content, lines, |content|) && Tiles(oldString, oldLines, |oldString|)
      && Edits(content, newString, replaceAll, r, lines, Texts(oldLines), level, starts)
  {
    hide MatchesAt, Tiles, MatchesNowhere, StrictestMatches;
    var contentLines := SplitEditLines(content);
    var patternLines := SplitEditLines(oldString);
    var texts := Texts(patternLines);
    if |texts| == 0 {
      assert Edits(content, newString, replaceAll, NotFound, contentLines, texts, 3, []);
      return NotFound;
    }
    var level, at := FindLenientEditMatches(contentLines, texts);
    if |at| == 0 {
      assert Edits(content, newString, replaceAll, NotFound, contentLines, texts, 3, []);
      return NotFound;
    }
    MatchesFit(level, Texts(contentLines), texts, at);
    SpansFit(content, contentLines, at, |texts|);
    if |at| > 1 && !replaceAll {
      assert Edits(content, newString, replaceAll, Ambiguous, contentLines, texts, level, at);
      return Ambiguous;
    }
    var spans := Spans(contentLines, at, |texts|, newString);
    assert !replaceAll ==> spans[..Min(1, |spans|)] == spans;
    var updated := ApplyLenientEditMatches(content, spans, replaceAll);
    r := if updated.None? then Panics else Edited(updated.value);
    assert Edits(content, newString, replaceAll, r, contentLines, texts, level, at);
  }

  /** The outcome is determined by the three strings and the flag. */
  lemma EditOnce(
    content: string, put: string, replaceAll: bool, lines: seq<EditLine>, pattern: seq<string>,
    r: Outcome, k: Level, a: seq<nat>, r': Outcome, l: Level, b: seq<nat>)
    requires Edits(content, put, replaceAll, r, lines, pattern, k, a)
    requires Edits(content, put, replaceAll, r', lines, pattern, l, b)
    ensures r == r'
  {
    hide MatchesAt, MatchesNowhere, Cut;
    if a != [] && b != [] {
      StrictestOnce(Texts(lines), pattern, k, a, l, b);
    } else if a != [] {
      SomethingMatches(Texts(lines), pattern, k, a);
    } else if b != [] {
      SomethingMatches(Texts(lines), pattern, l, b);
    }
  }

  lemma SomethingMatches(texts: seq<string>, pattern: seq<string>, level: Level, starts: seq<nat>)
    requires StrictestMatches(level, texts, pattern, starts)
    ensures !MatchesNowhere(3, texts, pattern, 0)
  {
    hide MatchesAt;
    assert starts[0] in starts;
    MatcherChain(level, 3, texts, pattern, starts[0]);
    MatchFits(level, texts, pattern, starts[0]);
  }

  /** Matches that do not overlap are replaced all at once, and nothing panics. */
  lemma ApartEdits(
    content: string, put: string, replaceAll: bool, r: Outcome,
    lines: seq<EditLine>, pattern: seq<string>, level: Level, starts: seq<nat>)
    requires Tiles(content, lines, |content|)
    requires Edits(content, put, replaceAll, r, lines, pattern, level, starts) && starts != []
    requires (replaceAll || |starts| == 1) && AllApart(lines, |pattern|, starts)
    ensures OneAfterAnother(|content|, Spans(lines, starts, |pattern|, put))
    ensures r == Edited(Forward(content, Spans(lines, starts, |pattern|, put), 0))
  {
    hide MatchesAt, Tiles, MatchesNowhere;
    SpansApart(content, lines, starts, |pattern|, put);
    CutsAtOnce(content, Spans(lines, starts, |pattern|, put));
  }

  /** An old string of one line is replaced wherever it is matched, all at once. */
  lemma OneLineEdits(
    content: string, put: string, replaceAll: bool, r: Outcome,
    lines: seq<EditLine>, pattern: seq<string>, level: Level, starts: seq<nat>)
    requires Tiles(content, lines, |content|) && |pattern| == 1
    requires Edits(content, put, replaceAll, r, lines, pattern, level, starts) && starts != []
    requires replaceAll || |starts| == 1
    ensures OneAfterAnother(|content|, Spans(lines, starts, 1, put))
    ensures r == Edited(Forward(content, Spans(lines, starts, 1, put), 0))
  {
    hide MatchesAt, Tiles, MatchesNowhere, Cut, OneAfterAnother, Forward;
    assert AllApart(lines, 1, starts);
    ApartEdits(content, put, replaceAll, r, lines, pattern, level, starts);
  }

  /** The whole edit panics if and only if everything is to be replaced and some
      match does not fit into what the replacement of the later ones left: its end
      lies beyond the length of the text plus, for each later match, the length
      of the new string minus its own. */
  lemma PanicsExactly(
    content: string, put: string, replaceAll: bool, r: Outcome,
    lines: seq<EditLine>, pattern: seq<string>, level: Level, starts: seq<nat>)
    requires Tiles(content, lines, |content|) && Edits(content, put, replaceAll, r, lines, pattern, level, starts)
    ensures r == Panics <==>
      && replaceAll && starts != []
      && exists k :: 0 <= k < |starts| && Overruns(|content|, Spans(lines, starts, |pattern|, put), k)
    ensures r == Panics ==> !AllApart(lines, |pattern|, starts)
  {
    hide MatchesAt, Tiles, MatchesNowhere, OneAfterAnother, AllApart, Forward;
    if starts != [] {
      var spans := Spans(lines, starts, |pattern|, put);
      SpansFit(content, lines, starts, |pattern|);
      assert spans[..|spans|] == spans && spans[|spans|..] == [];
      CutsExactly(|content|, spans, |spans|, content);
      if r == Panics && AllApart(lines, |pattern|, starts) {
        ApartEdits(content, put, replaceAll, r, lines, pattern, level, starts);
      }
    }
  }

  ghost predicate MatchesInside(lines: seq<EditLine>, pattern: seq<string>, starts: seq<nat>) {
    && pattern != []
    && (forall k :: 0 <= k < |starts| ==> starts[k] + |pattern| <= |lines|)
    && (forall k :: 0 <= k < |starts| ==> lines[starts[k]].start <= lines[starts[k] + |pattern| - 1].end)
  }

  lemma MatchesFit(level: Level, texts: seq<string>, pattern: seq<string>, starts: seq<nat>)
    requires StrictestMatches(level, texts, pattern, starts)
    ensures forall k :: 0 <= k < |starts| ==> starts[k] + |pattern| <= |texts|
  {
    forall k | 0 <= k < |starts|
      ensures starts[k] + |pattern| <= |texts|
    {
      assert starts[k] in starts;
      assert MatchesAt(level, texts, pattern, starts[k]);
    }
  }

  const BLANKS := "x \nx \nx "

  /** The text has three lines that end in a blank, the old string two that do
      not: it does not occur as it is, and is found twice, overlapping. A short
      new string makes the edit panic, a longer one loses part of what it put. */
  lemma OverlapPanics(put: string) returns (lines: seq<EditLine>, oldLines: seq<EditLine>)
    ensures !Contains(BLANKS, "x\nx") && Tiles(BLANKS, lines, |BLANKS|) && Tiles("x\nx", oldLines, 3)
    ensures Edits(BLANKS, put, true, if |put| < 2 then Panics else Edited(put + put[2..]), lines, Texts(oldLines), 1, [0, 1])
  {
    hide Contains;
    lines, oldLines := BlankLines();
    NotContained();
    var texts, pattern := Texts(lines), Texts(oldLines);
    assert texts == ["x ", "x ", "x "] && pattern == ["x", "x"];
    BlankMatches();
    var spans := Spans(lines, [0, 1], 2, put);
    assert spans == [Replacement(0, 5, put), Replacement(3, 5, put)];
    BlankCuts(put);
  }

  lemma BlankLines() returns (lines: seq<EditLine>, oldLines: seq<EditLine>)
    ensures lines == [EditLine("x ", 0, 2), EditLine("x ", 3, 5), EditLine("x ", 6, 8)]
    ensures oldLines == [EditLine("x", 0, 1), EditLine("x", 2, 3)]
    ensures Tiles(BLANKS, lines, |BLANKS|) && Tiles("x\nx", oldLines, 3)
  {
    hide Tiles;
    var s, t := BLANKS, "x\nx";
    EmptyTiles(s);
    EmptyTiles(t);
    assert s[0..2] == "x " && s[2..3] == "\n" && s[3..5] == "x " && s[5..6] == "\n" && s[6..8] == "x " && s[8..8] == "";
    assert t[0..1] == "x" && t[1..2] == "\n" && t[2..3] == "x" && t[3..3] == "";
    TilesSnoc(s, [], 0, 2, 3);
    lines := [] + [EditLine("x ", 0, 2)];
    TilesSnoc(s, lines, 3, 5, 6);
    lines := lines + [EditLine("x ", 3, 5)];
    TilesSnoc(s, lines, 6, 8, 8);
    lines := lines + [EditLine("x ", 6, 8)];
    TilesSnoc(t, [], 0, 1, 2);
    oldLines := [] + [EditLine("x", 0, 1)];
    TilesSnoc(t, oldLines, 2, 3, 3);
    oldLines := oldLines + [EditLine("x", 2, 3)];
  }

  lemma EmptyTiles(s: string)
    ensures Tiles(s, [], 0)
  {
  }

  lemma NotContained()
    ensures !Contains(BLANKS, "x\nx")
  {
    hide Contains;
    if Contains(BLANKS, "x\nx") {
      var i := ContainedAt(BLANKS, "x\nx");
      NotAt(i);
    }
  }

  lemma NotAt(i: nat)
    requires i + 3 <= |BLANKS|
    ensures BLANKS[i..i + 3] != "x\nx"
  {
    var s := BLANKS;
    assert s[i..i + 3][0] == s[i] && s[i..i + 3][1] == s[i + 1];
  }

  lemma BlankMatches()
    ensures StrictestMatches(1, ["x ", "x ", "x "], ["x", "x"], [0, 1])
  {
    var texts, pattern, starts: seq<nat> := ["x ", "x ", "x "], ["x", "x"], [0, 1];
    assert TrimBlanks("x ") == "x" && TrimBlanks("x") == "x" by {
      assert "x "[..1] == "x";
    }
    forall i: nat
      ensures i in starts <==> MatchesAt(1, texts, pattern, i)
    {
      assert i in starts <==> i == starts[0] || i == starts[1];
    }
  }

  lemma BlankCuts(put: string)
    ensures Cut(BLANKS, [Replacement(0, 5, put), Replacement(3, 5, put)]) ==
            if |put| < 2 then Panics else Edited(put + put[2..])
  {
    var reps := [Replacement(0, 5, put), Replacement(3, 5, put)];
    assert reps[..1] == [reps[0]] && reps[..1][..0] == [];
    var s := SpliceOne(BLANKS, reps[1]);
    assert s == "x \n" + put && Cuts(BLANKS, reps) == Cuts(s, reps[..1]);
    if |put| >= 2 {
      assert SpliceOne(s, reps[0]) == put + put[2..];
      assert Cuts(s, reps[..1]) == Cuts(put + put[2..], reps[..1][..0]) == Some(put + put[2..]);
    }
  }
}
