/** Where the hunks of a patch land in a file, and what the file becomes. */
module PatchSplice {
  import opened Messages
  import opened Splice
  import opened Text

  /** One hunk of an update: lines to find, lines to put there. */
  datatype Hunk = Hunk(context: Option<string>, oldLines: seq<string>, newLines: seq<string>, atEnd: bool)

  // ----- The four matchers

  function NormalizeChar(c: char): char {
    if c == '\U{2010}' || c == '\U{2011}' || c == '\U{2012}' || c == '\U{2013}' || c == '\U{2014}' || c == '\U{2015}' ||
       c == '\U{2212}' then '-'
    else if c == '\U{2018}' || c == '\U{2019}' || c == '\U{201A}' || c == '\U{201B}' then '\''
    else if c == '\U{201C}' || c == '\U{201D}' || c == '\U{201E}' || c == '\U{201F}' then '"'
    else if c == '\U{A0}' || '\U{2002}' <= c <= '\U{200A}' || c == '\U{202F}' || c == '\U{205F}' || c == '\U{3000}' then ' '
    else c
  }

  /** normalizePatchLine */
  function NormalizeLine(s: string): string {
    var t := TrimSpace(s);
    seq(|t|, i requires 0 <= i < |t| => NormalizeChar(t[i]))
  }

  /** The matchers from the strictest to the loosest: as it is, without blanks
      at the end, without white space around, and with typography ironed out. */
  type Level = l: nat | l < 4

  function Look(level: Level, s: string): string {
    match level
    case 0 => s
    case 1 => TrimBlanks(s)
    case 2 => TrimSpace(s)
    case _ => NormalizeLine(s)
  }

  predicate MatchesAt(level: Level, lines: seq<string>, pattern: seq<string>, i: nat) {
    i + |pattern| <= |lines| && forall k :: 0 <= k < |pattern| ==> Look(level, lines[i + k]) == Look(level, pattern[k])
  }

  lemma LookChain(level: Level, a: string, b: string)
    requires level < 3 && Look(level, a) == Look(level, b)
    ensures Look(level + 1, a) == Look(level + 1, b)
  {
    TrimBlanksThenSpace(a);
    TrimBlanksThenSpace(b);
  }

  /** What a strict matcher accepts, every looser one accepts. */
  lemma {:induction false} MatcherChain(strict: Level, loose: Level, lines: seq<string>, pattern: seq<string>, i: nat)
    requires strict <= loose && MatchesAt(strict, lines, pattern, i)
    ensures MatchesAt(loose, lines, pattern, i)
    decreases loose - strict
  {
    if strict < loose {
      forall k | 0 <= k < |pattern|
        ensures Look(strict + 1, lines[i + k]) == Look(strict + 1, pattern[k])
      {
        LookChain(strict, lines[i + k], pattern[k]);
      }
      MatcherChain(strict + 1, loose, lines, pattern, i);
    }
  }

  method Matches(level: Level, lines: seq<string>, pattern: seq<string>, start: nat) returns (matched: bool)
    requires start + |pattern| <= |lines|
    ensures matched == MatchesAt(level, lines, pattern, start)
  {
    for i := 0 to |pattern|
      invariant forall k :: 0 <= k < i ==> Look(level, lines[start + k]) == Look(level, pattern[k])
    {
      if Look(level, lines[start + i]) != Look(level, pattern[i]) {
        return false;
      }
    }
    return true;
  }

  // ----- The locator

  /** `i` is the first match at or after `start` of the strictest matcher that
      matches anywhere at or after `start`. */
  predicate FirstMatch(lines: seq<string>, pattern: seq<string>, start: nat, level: Level, i: nat) {
    && start <= i && MatchesAt(level, lines, pattern, i)
    && (forall j :: start <= j < i ==> !MatchesAt(level, lines, pattern, j))
    && (forall l: Level :: l < level ==> MatchesNowhere(l, lines, pattern, start))
  }

  predicate MatchesNowhere(level: Level, lines: seq<string>, pattern: seq<string>, start: nat) {
    forall j :: start <= j && j + |pattern| <= |lines| ==> !MatchesAt(level, lines, pattern, j)
  }

  /** The searches from one start: each matcher in turn over all positions. */
  method SeekFrom(lines: seq<string>, pattern: seq<string>, start: nat) returns (found: Option<nat>)
    requires 0 < |pattern| <= |lines|
    ensures found.None? <==> MatchesNowhere(3, lines, pattern, start)
    ensures found.Some? ==> exists level: Level :: FirstMatch(lines, pattern, start, level, found.value)
  {
    var maxStart := |lines| - |pattern|;
    var level := 0;
    while level < 4
      invariant level <= 4
      invariant forall l: Level :: l < level ==> MatchesNowhere(l, lines, pattern, start)
    {
      var i := start;
      while i <= maxStart
        invariant start <= i
        invariant forall j :: start <= j < i && j + |pattern| <= |lines| ==> !MatchesAt(level, lines, pattern, j)
        decreases maxStart - i
      {
        var matched := Matches(level, lines, pattern, i);
        if matched {
          assert FirstMatch(lines, pattern, start, level, i);
          MatcherChain(level, 3, lines, pattern, i);
          return Some(i);
        }
        i := i + 1;
      }
      assert MatchesNowhere(level, lines, pattern, start);
      level := level + 1;
    }
    return None;
  }

  /** What a search answers. With the end-of-file flag a match at the very end
      wins, even one that begins before `start`. */
  predicate Sought(lines: seq<string>, pattern: seq<string>, start: nat, eof: bool, found: Option<nat>) {
    if pattern == [] then found == Some(start)
    else if eof && |pattern| <= |lines| && MatchesAt(3, lines, pattern, |lines| - |pattern|) then
      found == Some(|lines| - |pattern|)
    else
      match found
      case None => MatchesNowhere(3, lines, pattern, start)
      case Some(i) => exists level: Level :: FirstMatch(lines, pattern, start, level, i)
  }

  lemma FirstMatchOnce(
    lines: seq<string>, pattern: seq<string>, start: nat, k: Level, i: nat, l: Level, j: nat)
    requires FirstMatch(lines, pattern, start, k, i) && FirstMatch(lines, pattern, start, l, j)
    ensures k == l && i == j
  {
    hide MatchesAt;
    MatchFits(k, lines, pattern, i);
    MatchFits(l, lines, pattern, j);
    assert k < l ==> MatchesNowhere(k, lines, pattern, start);
    assert l < k ==> MatchesNowhere(l, lines, pattern, start);
  }

  /** The answer is determined: nothing is found exactly when the loosest
      matcher matches nowhere, and there is one strictest first match. */
  lemma SoughtOnce(lines: seq<string>, pattern: seq<string>, start: nat, eof: bool, a: Option<nat>, b: Option<nat>)
    requires Sought(lines, pattern, start, eof, a) && Sought(lines, pattern, start, eof, b)
    ensures a == b
  {
    hide MatchesAt;
    if pattern != [] && !(eof && |pattern| <= |lines| && MatchesAt(3, lines, pattern, |lines| - |pattern|)) {
      if a.Some? {
        var k: Level :| FirstMatch(lines, pattern, start, k, a.value);
        MatcherChain(k, 3, lines, pattern, a.value);
        MatchFits(k, lines, pattern, a.value);
        if b.Some? {
          var l: Level :| FirstMatch(lines, pattern, start, l, b.value);
          FirstMatchOnce(lines, pattern, start, k, a.value, l, b.value);
        }
      } else if b.Some? {
        var l: Level :| FirstMatch(lines, pattern, start, l, b.value);
        MatchFits(l, lines, pattern, b.value);
        MatcherChain(l, 3, lines, pattern, b.value);
      }
    }
  }

  /** seekPatchSequence */
  method SeekPatchSequence(lines: seq<string>, pattern: seq<string>, start: nat, eof: bool) returns (found: Option<nat>)
    ensures Sought(lines, pattern, start, eof, found)
  {
    hide MatchesAt;
    if |pattern| == 0 {
      return Some(start);
    }
    if |pattern| > |lines| {
      return None;
    }
    if eof {
      var eofStart: nat := |lines| - |pattern|;
      found := SeekFrom(lines, pattern, eofStart);
      if found.Some? {
        var level: Level :| FirstMatch(lines, pattern, eofStart, level, found.value);
        MatchFits(level, lines, pattern, found.value);
        MatcherChain(level, 3, lines, pattern, found.value);
        return;
      }
    }
    found := SeekFrom(lines, pattern, start);
  }

  lemma MatchFits(level: Level, lines: seq<string>, pattern: seq<string>, i: nat)
    requires MatchesAt(level, lines, pattern, i)
    ensures i + |pattern| <= |lines|
  {
  }

  // ----- Placing the hunks

  function WithoutLastEmpty(lines: seq<string>): seq<string> {
    if lines != [] && lines[|lines| - 1] == "" then lines[..|lines| - 1] else lines
  }

  /** The hunk's old lines are found at `r`; only when they are not is a last
      empty line left out. */
  predicate Located(lines: seq<string>, h: Hunk, cursor: nat, r: Replacement<string>) {
    || (&& Sought(lines, h.oldLines, cursor, h.atEnd, Some(r.start))
        && r == Replacement(r.start, |h.oldLines|, h.newLines))
    || (&& Sought(lines, h.oldLines, cursor, h.atEnd, None) && h.oldLines != [] && h.oldLines[|h.oldLines| - 1] == ""
        && Sought(lines, h.oldLines[..|h.oldLines| - 1], cursor, h.atEnd, Some(r.start))
        && r == Replacement(r.start, |h.oldLines| - 1, WithoutLastEmpty(h.newLines)))
  }

  predicate NotLocated(lines: seq<string>, h: Hunk, cursor: nat) {
    && Sought(lines, h.oldLines, cursor, h.atEnd, None)
    && (h.oldLines != [] && h.oldLines[|h.oldLines| - 1] == "" ==>
          Sought(lines, h.oldLines[..|h.oldLines| - 1], cursor, h.atEnd, None))
  }

  /** The cursor after the hunk's context line, if it names one. */
  predicate ContextFound(lines: seq<string>, h: Hunk, cursor: nat, after: nat) {
    if h.context.None? then after == cursor
    else after > 0 && Sought(lines, [h.context.value], cursor, false, Some(after - 1))
  }

  function InsertionPoint(lines: seq<string>): nat {
    if lines != [] && lines[|lines| - 1] == "" then |lines| - 1 else |lines|
  }

  /** One hunk moves the cursor and becomes one replacement. */
  ghost predicate Step(lines: seq<string>, h: Hunk, cursor: nat, r: Replacement<string>, next: nat) {
    if h.oldLines == [] then
      ContextFound(lines, h, cursor, next) && r == Replacement(InsertionPoint(lines), 0, h.newLines)
    else
      && next == r.start + r.oldLen
      && exists after: nat :: ContextFound(lines, h, cursor, after) && Located(lines, h, after, r)
  }

  ghost predicate Stuck(lines: seq<string>, h: Hunk, cursor: nat) {
    || (h.context.Some? && Sought(lines, [h.context.value], cursor, false, None))
    || (h.oldLines != [] && exists after: nat :: ContextFound(lines, h, cursor, after) && NotLocated(lines, h, after))
  }

  /** All hunks in turn, the cursor starting at the first line. */
  ghost predicate Placed(lines: seq<string>, hunks: seq<Hunk>, reps: seq<Replacement<string>>, cursor: nat) {
    |reps| == |hunks| &&
    if hunks == [] then cursor == 0
    else
      var n := |hunks| - 1;
      exists before: nat :: Placed(lines, hunks[..n], reps[..n], before) && Step(lines, hunks[n], before, reps[n], cursor)
  }

  lemma PlacedSnoc(
    lines: seq<string>, hunks: seq<Hunk>, reps: seq<Replacement<string>>, cursor: nat, h: Hunk, r: Replacement<string>, next: nat)
    requires Placed(lines, hunks, reps, cursor) && Step(lines, h, cursor, r, next)
    ensures Placed(lines, hunks + [h], reps + [r], next)
  {
    assert (hunks + [h])[..|hunks|] == hunks && (reps + [r])[..|reps|] == reps;
  }

  lemma ContextOnce(lines: seq<string>, h: Hunk, cursor: nat, a: nat, b: nat)
    requires ContextFound(lines, h, cursor, a) && ContextFound(lines, h, cursor, b)
    ensures a == b
  {
    hide Sought;
    if h.context.Some? {
      SoughtOnce(lines, [h.context.value], cursor, false, Some(a - 1), Some(b - 1));
    }
  }

  lemma ContextIsThere(lines: seq<string>, h: Hunk, cursor: nat, after: nat)
    requires ContextFound(lines, h, cursor, after)
    ensures h.context.Some? ==> !Sought(lines, [h.context.value], cursor, false, None)
  {
    hide Sought;
    if h.context.Some? && Sought(lines, [h.context.value], cursor, false, None) {
      SoughtOnce(lines, [h.context.value], cursor, false, None, Some(after - 1));
    }
  }

  lemma LocatedOnce(lines: seq<string>, h: Hunk, cursor: nat, a: Replacement<string>, b: Replacement<string>)
    requires Located(lines, h, cursor, a) && Located(lines, h, cursor, b)
    ensures a == b
  {
    hide Sought;
    forall x: Option<nat>, y: Option<nat> |
      Sought(lines, h.oldLines, cursor, h.atEnd, x) && Sought(lines, h.oldLines, cursor, h.atEnd, y)
      ensures x == y
    {
      SoughtOnce(lines, h.oldLines, cursor, h.atEnd, x, y);
    }
    if Sought(lines, h.oldLines, cursor, h.atEnd, None) {
      var shorter := h.oldLines[..|h.oldLines| - 1];
      SoughtOnce(lines, shorter, cursor, h.atEnd, Some(a.start), Some(b.start));
    }
  }

  lemma LocatedOrNot(lines: seq<string>, h: Hunk, cursor: nat, r: Replacement<string>)
    requires Located(lines, h, cursor, r)
    ensures !NotLocated(lines, h, cursor)
  {
    hide Sought;
    if NotLocated(lines, h, cursor) {
      if Sought(lines, h.oldLines, cursor, h.atEnd, Some(r.start)) {
        SoughtOnce(lines, h.oldLines, cursor, h.atEnd, None, Some(r.start));
      } else {
        SoughtOnce(lines, h.oldLines[..|h.oldLines| - 1], cursor, h.atEnd, None, Some(r.start));
      }
    }
  }

  lemma StepOnce(
    lines: seq<string>, h: Hunk, cursor: nat, r: Replacement<string>, next: nat, r': Replacement<string>, next': nat)
    requires Step(lines, h, cursor, r, next) && Step(lines, h, cursor, r', next')
    ensures r == r' && next == next'
  {
    hide ContextFound, Located;
    if h.oldLines == [] {
      ContextOnce(lines, h, cursor, next, next');
    } else {
      var after: nat :| ContextFound(lines, h, cursor, after) && Located(lines, h, after, r);
      var after': nat :| ContextFound(lines, h, cursor, after') && Located(lines, h, after', r');
      ContextOnce(lines, h, cursor, after, after');
      LocatedOnce(lines, h, after, r, r');
    }
  }

  /** A hunk that has no place cannot be placed. */
  lemma StuckOrStep(lines: seq<string>, h: Hunk, cursor: nat, r: Replacement<string>, next: nat)
    requires Step(lines, h, cursor, r, next)
    ensures !Stuck(lines, h, cursor)
  {
    hide Located, NotLocated, Sought;
    if h.oldLines == [] {
      ContextIsThere(lines, h, cursor, next);
    } else {
      var after: nat :| ContextFound(lines, h, cursor, after) && Located(lines, h, after, r);
      ContextIsThere(lines, h, cursor, after);
      forall x: nat | ContextFound(lines, h, cursor, x)
        ensures !NotLocated(lines, h, x)
      {
        ContextOnce(lines, h, cursor, after, x);
        LocatedOrNot(lines, h, after, r);
      }
    }
  }

  /** Where the hunks of a patch land is determined. */
  lemma {:induction false} PlacedOnce(
    lines: seq<string>, hunks: seq<Hunk>, reps: seq<Replacement<string>>, cursor: nat,
    reps': seq<Replacement<string>>, cursor': nat)
    requires Placed(lines, hunks, reps, cursor) && Placed(lines, hunks, reps', cursor')
    ensures reps == reps' && cursor == cursor'
    decreases |hunks|
  {
    hide Step;
    if hunks != [] {
      var n := |hunks| - 1;
      var before: nat :| Placed(lines, hunks[..n], reps[..n], before) && Step(lines, hunks[n], before, reps[n], cursor);
      var before': nat :| Placed(lines, hunks[..n], reps'[..n], before') && Step(lines, hunks[n], before', reps'[n], cursor');
      PlacedOnce(lines, hunks[..n], reps[..n], before, reps'[..n], before');
      StepOnce(lines, hunks[n], before, reps[n], cursor, reps'[n], cursor');
      assert reps == reps[..n] + [reps[n]] && reps' == reps'[..n] + [reps'[n]];
    }
  }

  /** The first hunks of a placed patch are placed, and the next one has a
      place after them. */
  lemma {:induction false} PlacedPrefix(
    lines: seq<string>, hunks: seq<Hunk>, reps: seq<Replacement<string>>, cursor: nat, k: nat)
    returns (before: nat, after: nat)
    requires Placed(lines, hunks, reps, cursor) && k < |hunks|
    ensures k < |reps| && Placed(lines, hunks[..k], reps[..k], before) && Step(lines, hunks[k], before, reps[k], after)
    decreases |hunks|
  {
    hide Step;
    var n := |hunks| - 1;
    var last: nat :| Placed(lines, hunks[..n], reps[..n], last) && Step(lines, hunks[n], last, reps[n], cursor);
    if k == n {
      before, after := last, cursor;
    } else {
      before, after := PlacedPrefix(lines, hunks[..n], reps[..n], last, k);
      assert hunks[..n][..k] == hunks[..k] && reps[..n][..k] == reps[..k];
    }
  }

  /** Some hunk has no place after those before it. */
  ghost predicate Unplaceable(lines: seq<string>, hunks: seq<Hunk>) {
    exists k, reps, cursor: nat :: 0 <= k < |hunks| && Placed(lines, hunks[..k], reps, cursor) && Stuck(lines, hunks[k], cursor)
  }

  lemma UnplaceableIsNotPlaced(lines: seq<string>, hunks: seq<Hunk>, reps: seq<Replacement<string>>, cursor: nat)
    requires Placed(lines, hunks, reps, cursor)
    ensures !Unplaceable(lines, hunks)
  {
    hide Placed, Step, Stuck;
    forall k, rs, c: nat | 0 <= k < |hunks| && Placed(lines, hunks[..k], rs, c)
      ensures !Stuck(lines, hunks[k], c)
    {
      var before, after := PlacedPrefix(lines, hunks, reps, cursor, k);
      PlacedOnce(lines, hunks[..k], rs, c, reps[..k], before);
      StuckOrStep(lines, hunks[k], before, reps[k], after);
    }
  }

  method SeekContext(lines: seq<string>, h: Hunk, cursor: nat) returns (after: Option<nat>)
    ensures after.Some? ==> ContextFound(lines, h, cursor, after.value)
    ensures after.None? ==> h.context.Some? && Sought(lines, [h.context.value], cursor, false, None)
  {
    hide Sought;
    if h.context.None? {
      return Some(cursor);
    }
    var idx := SeekPatchSequence(lines, [h.context.value], cursor, false);
    after := if idx.None? then None else Some(idx.value + 1);
  }

  /** The search for the old lines, with its second attempt. */
  method LocateHunk(lines: seq<string>, h: Hunk, cursor: nat) returns (r: Option<Replacement<string>>)
    requires h.oldLines != []
    ensures r.Some? ==> Located(lines, h, cursor, r.value)
    ensures r.None? ==> NotLocated(lines, h, cursor)
  {
    hide Sought;
    var pattern, newSlice := h.oldLines, h.newLines;
    var found := SeekPatchSequence(lines, pattern, cursor, h.atEnd);
    if found.None? && pattern[|pattern| - 1] == "" {
      pattern := pattern[..|pattern| - 1];
      if |newSlice| > 0 && newSlice[|newSlice| - 1] == "" {
        newSlice := newSlice[..|newSlice| - 1];
      }
      found := SeekPatchSequence(lines, pattern, cursor, h.atEnd);
    }
    r := if found.None? then None else Some(Replacement(found.value, |pattern|, newSlice));
  }

  /** computePatchReplacements: the hunks placed in turn, then sorted by start;
      nothing is promised about the order of equal starts. It fails exactly
      when some hunk has no place. */
  method ComputePatchReplacements(lines: seq<string>, hunks: seq<Hunk>) returns (sorted: Option<seq<Replacement<string>>>)
    ensures sorted.Some? ==> exists placed, cursor: nat ::
      Placed(lines, hunks, placed, cursor) && SortedFrom(sorted.value, placed)
    ensures sorted.None? <==> Unplaceable(lines, hunks)
  {
    hide ContextFound, Located, NotLocated, Placed;
    var reps: seq<Replacement<string>> := [];
    var lineIndex: nat := 0;
    NonePlaced(lines);
    for k := 0 to |hunks|
      invariant Placed(lines, hunks[..k], reps, lineIndex)
    {
      var h := hunks[k];
      assert hunks[..k + 1] == hunks[..k] + [h];
      var after := SeekContext(lines, h, lineIndex);
      if after.None? {
        assert Stuck(lines, hunks[k], lineIndex);
        return None;
      }
      if |h.oldLines| == 0 {
        var r := Replacement(InsertionPoint(lines), 0, h.newLines);
        PlacedSnoc(lines, hunks[..k], reps, lineIndex, h, r, after.value);
        reps, lineIndex := reps + [r], after.value;
        continue;
      }
      var r := LocateHunk(lines, h, after.value);
      if r.None? {
        assert Stuck(lines, hunks[k], lineIndex);
        return None;
      }
      PlacedSnoc(lines, hunks[..k], reps, lineIndex, h, r.value, r.value.start + r.value.oldLen);
      reps, lineIndex := reps + [r.value], r.value.start + r.value.oldLen;
    }
    assert hunks[..|hunks|] == hunks;
    UnplaceableIsNotPlaced(lines, hunks, reps, lineIndex);
    var result := SortReplacements(reps);
    return Some(result);
  }

  lemma NonePlaced(lines: seq<string>)
    ensures Placed(lines, [], [], 0)
  {
  }

  // ----- Sorting

  predicate InStartOrder(reps: seq<Replacement<string>>) {
    forall i, j :: 0 <= i < j < |reps| ==> reps[i].start <= reps[j].start
  }

  ghost predicate SortedFrom(sorted: seq<Replacement<string>>, reps: seq<Replacement<string>>) {
    multiset(sorted) == multiset(reps) && InStartOrder(sorted)
  }

  method SortReplacements(reps: seq<Replacement<string>>) returns (sorted: seq<Replacement<string>>)
    ensures SortedFrom(sorted, reps)
  {
    sorted := [];
    for i := 0 to |reps|
      invariant SortedFrom(sorted, reps[..i])
    {
      assert reps[..i + 1] == reps[..i] + [reps[i]];
      sorted := Inserted(reps[i], sorted);
    }
    assert reps[..|reps|] == reps;
  }

  lemma LastMoved(
    rest: seq<Replacement<string>>, front: seq<Replacement<string>>, r: Replacement<string>, last: Replacement<string>)
    requires multiset(rest) == multiset(front + [r])
    ensures multiset(rest + [last]) == multiset(front + [last] + [r])
  {
    assert multiset(front + [r]) == multiset(front) + multiset{r};
    assert multiset(front + [last] + [r]) == multiset(front) + multiset{last} + multiset{r};
  }

  lemma LastStays(
    rest: seq<Replacement<string>>, front: seq<Replacement<string>>, r: Replacement<string>, last: Replacement<string>)
    requires multiset(rest) == multiset(front + [r]) && InStartOrder(rest)
    requires InStartOrder(front + [last]) && r.start < last.start
    ensures InStartOrder(rest + [last])
  {
    forall i | 0 <= i < |rest|
      ensures rest[i].start <= last.start
    {
      assert rest[i] in multiset(front + [r]);
      var k :| 0 <= k < |front + [r]| && (front + [r])[k] == rest[i];
      assert k < |front| ==> (front + [last])[k] == rest[i] && (front + [last])[|front|] == last;
    }
  }

  method Inserted(r: Replacement<string>, sorted: seq<Replacement<string>>) returns (longer: seq<Replacement<string>>)
    requires InStartOrder(sorted)
    ensures multiset(longer) == multiset(sorted + [r]) && InStartOrder(longer)
  {
    if |sorted| == 0 || sorted[|sorted| - 1].start <= r.start {
      return sorted + [r];
    }
    var front, last := sorted[..|sorted| - 1], sorted[|sorted| - 1];
    assert sorted == front + [last];
    var rest := Inserted(r, front);
    hide InStartOrder;
    LastMoved(rest, front, r, last);
    LastStays(rest, front, r, last);
    longer := rest + [last];
  }

  lemma SameLast(sorted: seq<Replacement<string>>, reps: seq<Replacement<string>>)
    requires SortedFrom(sorted, reps) && reps != []
    requires forall i, j :: 0 <= i < j < |reps| ==> reps[i].start < reps[j].start
    ensures |sorted| == |reps| && sorted[|reps| - 1] == reps[|reps| - 1]
  {
    assert |sorted| == |multiset(sorted)| && |reps| == |multiset(reps)|;
    var n := |reps| - 1;
    assert reps[n] in multiset(sorted) && sorted[n] in multiset(reps);
  }

  lemma WithoutLast(a: seq<Replacement<string>>, b: seq<Replacement<string>>)
    requires multiset(a) == multiset(b) && |a| == |b| > 0 && a[|a| - 1] == b[|b| - 1]
    ensures multiset(a[..|a| - 1]) == multiset(b[..|b| - 1])
  {
    var n := |a| - 1;
    assert a == a[..n] + [a[n]] && b == b[..n] + [b[n]];
    assert multiset(a[..n]) == multiset(a) - multiset{a[n]} && multiset(b[..n]) == multiset(b) - multiset{b[n]};
  }

  /** A list that is already in strict order has no other sorted form. */
  lemma {:induction false} StrictIsSorted(sorted: seq<Replacement<string>>, reps: seq<Replacement<string>>)
    requires SortedFrom(sorted, reps) && forall i, j :: 0 <= i < j < |reps| ==> reps[i].start < reps[j].start
    ensures sorted == reps
  {
    assert |sorted| == |multiset(sorted)| && |reps| == |multiset(reps)|;
    if reps != [] {
      var n := |reps| - 1;
      SameLast(sorted, reps);
      WithoutLast(sorted, reps);
      StrictIsSorted(sorted[..n], reps[..n]);
      assert sorted == sorted[..n] + [sorted[n]] && reps == reps[..n] + [reps[n]];
    }
  }

  // ----- Hunks in order

  /** Every replacement replaces something: it has old lines, and not just one
      empty line that is not in the file. */
  predicate Replacing(reps: seq<Replacement<string>>) {
    forall i :: 0 <= i < |reps| ==> 0 < reps[i].oldLen
  }

  /** What is found begins at the cursor or after it, unless it was found at the
      end because of the flag. */
  lemma LocatedRange(lines: seq<string>, h: Hunk, cursor: nat, r: Replacement<string>)
    requires h.oldLines != [] && Located(lines, h, cursor, r) && cursor <= |lines|
    ensures r.start + r.oldLen <= |lines|
    ensures cursor <= r.start || (h.atEnd && r.start + r.oldLen == |lines|)
  {
  }

  lemma ContextForward(lines: seq<string>, h: Hunk, cursor: nat, after: nat)
    requires ContextFound(lines, h, cursor, after) && cursor <= |lines|
    ensures cursor <= after <= |lines|
  {
  }

  /** The hunks land in bounds, and of two that replace something the second lands
      behind the first, or at the end of the file because of its flag. */
  ghost predicate InReach(lines: seq<string>, hunks: seq<Hunk>, reps: seq<Replacement<string>>, cursor: nat) {
    && cursor <= |lines| && |reps| == |hunks|
    && (forall i :: 0 <= i < |reps| ==> reps[i].start + reps[i].oldLen <= |lines|)
    && (forall i :: 0 <= i < |reps| && 0 < reps[i].oldLen ==> reps[i].start + reps[i].oldLen <= cursor)
    && (forall i, j :: 0 <= i < j < |reps| && 0 < reps[i].oldLen && 0 < reps[j].oldLen ==>
          || reps[i].start + reps[i].oldLen <= reps[j].start
          || (hunks[j].atEnd && reps[j].start + reps[j].oldLen == |lines|))
  }

  /** No hunk that the flag took to the end of the file lands on what a hunk before
      it replaces. */
  predicate FlagsClear(hunks: seq<Hunk>, reps: seq<Replacement<string>>) {
    forall i, j :: 0 <= i < j < |reps| && j < |hunks| && hunks[j].atEnd && 0 < reps[i].oldLen && 0 < reps[j].oldLen ==>
      reps[i].start + reps[i].oldLen <= reps[j].start
  }

  /** Then the hunks that replace something land disjoint and in their own order. */
  ghost predicate InOwnOrder(lines: seq<string>, reps: seq<Replacement<string>>, cursor: nat) {
    && cursor <= |lines|
    && (forall i :: 0 <= i < |reps| ==> reps[i].start + reps[i].oldLen <= |lines|)
    && (forall i :: 0 <= i < |reps| && 0 < reps[i].oldLen ==> reps[i].start + reps[i].oldLen <= cursor)
    && (forall i, j :: 0 <= i < j < |reps| && 0 < reps[i].oldLen && 0 < reps[j].oldLen ==>
          reps[i].start + reps[i].oldLen <= reps[j].start)
  }

  lemma {:induction false} PlacedInReach(lines: seq<string>, hunks: seq<Hunk>, reps: seq<Replacement<string>>, cursor: nat)
    requires Placed(lines, hunks, reps, cursor)
    ensures InReach(lines, hunks, reps, cursor)
  {
    hide Step, InReach;
    if hunks == [] {
      NoneInReach(lines, reps);
    } else {
      var n := |hunks| - 1;
      var before: nat :| Placed(lines, hunks[..n], reps[..n], before) && Step(lines, hunks[n], before, reps[n], cursor);
      PlacedInReach(lines, hunks[..n], reps[..n], before);
      CursorInside(lines, hunks[..n], reps[..n], before);
      StepForward(lines, hunks[n], before, reps[n], cursor);
      assert reps == reps[..n] + [reps[n]] && hunks == hunks[..n] + [hunks[n]];
      OneMoreInReach(lines, hunks[..n], reps[..n], before, hunks[n], reps[n], cursor);
    }
  }

  lemma CursorInside(lines: seq<string>, hunks: seq<Hunk>, reps: seq<Replacement<string>>, cursor: nat)
    requires InReach(lines, hunks, reps, cursor)
    ensures cursor <= |lines|
  {
  }

  lemma NoneInReach(lines: seq<string>, reps: seq<Replacement<string>>)
    requires reps == []
    ensures InReach(lines, [], reps, 0)
  {
  }

  /** The cursor never goes back. */
  lemma StepForward(lines: seq<string>, h: Hunk, cursor: nat, r: Replacement<string>, next: nat)
    requires Step(lines, h, cursor, r, next) && cursor <= |lines|
    ensures cursor <= next <= |lines| && r.start + r.oldLen <= |lines|
    ensures 0 < r.oldLen ==> r.start + r.oldLen <= next
    ensures 0 < r.oldLen ==> cursor <= r.start || (h.atEnd && r.start + r.oldLen == |lines|)
  {
    hide Located, ContextFound;
    if h.oldLines == [] {
      ContextForward(lines, h, cursor, next);
    } else {
      var after: nat :| ContextFound(lines, h, cursor, after) && Located(lines, h, after, r);
      ContextForward(lines, h, cursor, after);
      LocatedRange(lines, h, after, r);
    }
  }

  lemma OneMoreInReach(
    lines: seq<string>, hunks: seq<Hunk>, reps: seq<Replacement<string>>, cursor: nat, h: Hunk, r: Replacement<string>, next: nat)
    requires InReach(lines, hunks, reps, cursor) && cursor <= next <= |lines| && r.start + r.oldLen <= |lines|
    requires 0 < r.oldLen ==> r.start + r.oldLen <= next
    requires 0 < r.oldLen ==> cursor <= r.start || (h.atEnd && r.start + r.oldLen == |lines|)
    ensures InReach(lines, hunks + [h], reps + [r], next)
  {
  }

  lemma ClearIsInOrder(lines: seq<string>, hunks: seq<Hunk>, reps: seq<Replacement<string>>, cursor: nat)
    requires InReach(lines, hunks, reps, cursor) && FlagsClear(hunks, reps)
    ensures InOwnOrder(lines, reps, cursor)
  {
  }

  /** So hunks that all replace something land one after the other, as long as no
      flag takes one back, and sorting leaves them as they are. */
  lemma PlainHunksInOrder(lines: seq<string>, hunks: seq<Hunk>, reps: seq<Replacement<string>>, cursor: nat)
    requires Placed(lines, hunks, reps, cursor) && FlagsClear(hunks, reps) && Replacing(reps)
    ensures OneAfterAnother(|lines|, reps)
    ensures forall sorted :: SortedFrom(sorted, reps) ==> sorted == reps
  {
    hide Placed, SortedFrom;
    PlacedInReach(lines, hunks, reps, cursor);
    ClearIsInOrder(lines, hunks, reps, cursor);
    forall sorted | SortedFrom(sorted, reps)
      ensures sorted == reps
    {
      StrictIsSorted(sorted, reps);
    }
  }

  /** An insertion that the sort put behind a replacement comes after its end. */
  ghost predicate InsertsOutside(sorted: seq<Replacement<string>>) {
    forall i, j :: 0 <= i < j < |sorted| && 0 < sorted[i].oldLen && sorted[j].oldLen == 0 ==>
      sorted[i].start + sorted[i].oldLen <= sorted[j].start
  }

  /** Of two entries of a sorted list that replace something, the first ends
      where the second begins or before. */
  lemma SortedPair(
    lines: seq<string>, reps: seq<Replacement<string>>, cursor: nat, sorted: seq<Replacement<string>>, i: nat, j: nat)
    requires InOwnOrder(lines, reps, cursor) && SortedFrom(sorted, reps)
    requires i < j < |sorted| && 0 < sorted[i].oldLen && 0 < sorted[j].oldLen
    ensures sorted[i].start + sorted[i].oldLen <= sorted[j].start
  {
    assert sorted[i] in multiset(reps) && sorted[j] in multiset(reps);
    var a :| 0 <= a < |reps| && reps[a] == sorted[i];
    var b :| 0 <= b < |reps| && reps[b] == sorted[j];
    if a == b {
      OnlyOnce(lines, reps, cursor, a);
      TwiceIn(sorted, i, j);
    }
  }

  lemma TwiceIn(s: seq<Replacement<string>>, i: nat, j: nat)
    requires i < j < |s| && s[i] == s[j]
    ensures multiset(s)[s[i]] >= 2
  {
    assert s == s[..j] + s[j..] && s[..j][i] == s[i] && s[j..][0] == s[j];
    assert multiset(s) == multiset(s[..j]) + multiset(s[j..]);
  }

  lemma OnlyOnce(lines: seq<string>, reps: seq<Replacement<string>>, cursor: nat, a: nat)
    requires InOwnOrder(lines, reps, cursor) && a < |reps| && 0 < reps[a].oldLen
    ensures multiset(reps)[reps[a]] == 1
  {
    var before, after := reps[..a], reps[a + 1..];
    assert reps == before + [reps[a]] + after;
    assert reps[a] !in before && reps[a] !in after;
    assert multiset(reps) == multiset(before) + multiset{reps[a]} + multiset(after);
  }

  /** The sorted replacements are disjoint, and make up one pass over the file, if
      and only if nothing is inserted inside what a replacement before it takes out
      and no flag takes a hunk to lines that are replaced already. */
  lemma DisjointExactly(
    lines: seq<string>, hunks: seq<Hunk>, reps: seq<Replacement<string>>, cursor: nat, sorted: seq<Replacement<string>>)
    requires Placed(lines, hunks, reps, cursor) && SortedFrom(sorted, reps)
    ensures OneAfterAnother(|lines|, sorted) <==> InsertsOutside(sorted) && FlagsClear(hunks, reps)
    ensures OneAfterAnother(|lines|, sorted) ==> Backward(lines, sorted) == Forward(lines, sorted, 0)
  {
    hide Placed, SortedFrom, InReach, InOwnOrder, Forward, Backward, FlagsClear;
    PlacedInReach(lines, hunks, reps, cursor);
    if InsertsOutside(sorted) && FlagsClear(hunks, reps) {
      ClearIsInOrder(lines, hunks, reps, cursor);
      SortedInBounds(lines, reps, cursor, sorted);
      forall i, j | 0 <= i < j < |sorted|
        ensures sorted[i].start + sorted[i].oldLen <= sorted[j].start
      {
        if 0 < sorted[i].oldLen && 0 < sorted[j].oldLen {
          SortedPair(lines, reps, cursor, sorted, i, j);
        }
      }
    }
    if OneAfterAnother(|lines|, sorted) {
      BackwardIsForward(lines, sorted);
      DisjointIsClear(lines, hunks, reps, cursor, sorted);
    }
  }

  /** Two positions of a list are two positions of the sorted one. */
  lemma BothSorted(reps: seq<Replacement<string>>, sorted: seq<Replacement<string>>, i: nat, j: nat) returns (p: nat, q: nat)
    requires multiset(sorted) == multiset(reps) && i < j < |reps|
    ensures p < |sorted| && q < |sorted| && p != q && sorted[p] == reps[i] && sorted[q] == reps[j]
  {
    assert reps[i] in multiset(sorted) && reps[j] in multiset(sorted);
    p :| p < |sorted| && sorted[p] == reps[i];
    if reps[i] == reps[j] {
      TwiceIn(reps, i, j);
      var rest := sorted[..p] + sorted[p + 1..];
      assert sorted == sorted[..p] + [sorted[p]] + sorted[p + 1..];
      assert multiset(sorted) == multiset(rest) + multiset{sorted[p]};
      assert reps[j] in rest;
      var k :| 0 <= k < |rest| && rest[k] == reps[j];
      q := if k < p then k else k + 1;
    } else {
      q :| q < |sorted| && sorted[q] == reps[j];
    }
  }

  lemma DisjointIsClear(
    lines: seq<string>, hunks: seq<Hunk>, reps: seq<Replacement<string>>, cursor: nat, sorted: seq<Replacement<string>>)
    requires InReach(lines, hunks, reps, cursor) && SortedFrom(sorted, reps) && OneAfterAnother(|lines|, sorted)
    ensures FlagsClear(hunks, reps)
  {
    forall i: nat, j: nat | i < j < |reps| && hunks[j].atEnd && 0 < reps[i].oldLen && 0 < reps[j].oldLen
      ensures reps[i].start + reps[i].oldLen <= reps[j].start
    {
      var p, q := BothSorted(reps, sorted, i, j);
    }
  }

  lemma SortedInBounds(lines: seq<string>, reps: seq<Replacement<string>>, cursor: nat, sorted: seq<Replacement<string>>)
    requires InOwnOrder(lines, reps, cursor) && SortedFrom(sorted, reps)
    ensures forall i :: 0 <= i < |sorted| ==> sorted[i].start + sorted[i].oldLen <= |lines|
    ensures forall i, j :: 0 <= i < j < |sorted| ==> sorted[i].start <= sorted[j].start
  {
    forall i | 0 <= i < |sorted|
      ensures sorted[i].start + sorted[i].oldLen <= |lines|
    {
      assert sorted[i] in multiset(reps);
    }
  }

  /** With the flag a hunk lands before the cursor if and only if its lines match
      at the end of the file and that is before the cursor. */
  lemma FlagGoesBack(lines: seq<string>, h: Hunk, cursor: nat, r: Replacement<string>)
    requires h.atEnd && h.oldLines != [] && Located(lines, h, cursor, r) && r.oldLen == |h.oldLines|
    ensures r.start < cursor <==>
      && |h.oldLines| <= |lines| && MatchesAt(3, lines, h.oldLines, |lines| - |h.oldLines|)
      && |lines| - |h.oldLines| < cursor
  {
    hide MatchesAt;
  }

  /** Then two hunks may replace the same line, and only one of them is seen. */
  lemma FlagOverlaps(line: string, one: string, two: string)
    ensures var hunks := [Hunk(None, [line], [one], false), Hunk(None, [line], [two], true)];
      var reps := [Replacement(0, 1, [one]), Replacement(0, 1, [two])];
      && Placed([line], hunks, reps, 1) && !OneAfterAnother(1, reps) && Backward([line], reps) == [one]
  {
    var lines, h1, h2 := [line], Hunk(None, [line], [one], false), Hunk(None, [line], [two], true);
    var r1, r2 := Replacement(0, 1, [one]), Replacement(0, 1, [two]);
    NonePlaced(lines);
    assert FirstMatch(lines, lines, 0, 0, 0);
    assert ContextFound(lines, h1, 0, 0) && Located(lines, h1, 0, r1);
    assert MatchesAt(3, lines, lines, 0);
    assert ContextFound(lines, h2, 1, 1) && Located(lines, h2, 1, r2);
    assert Step(lines, h1, 0, r1, 1) && Step(lines, h2, 1, r2, 1);
    hide MatchesAt, Located, ContextFound, Step, Placed, Backward, SpliceOne;
    PlacedSnoc(lines, [], [], 0, h1, r1, 1);
    PlacedSnoc(lines, [h1], [r1], 1, h2, r2, 1);
    assert [] + [h1] == [h1] && [] + [r1] == [r1] && [h1] + [h2] == [h1, h2] && [r1] + [r2] == [r1, r2];
    SecondIsLost(line, one, two);
  }

  lemma SecondIsLost(line: string, one: string, two: string)
    ensures Backward([line], [Replacement(0, 1, [one]), Replacement(0, 1, [two])]) == [one]
  {
    var r1, r2 := Replacement(0, 1, [one]), Replacement(0, 1, [two]);
    assert [r1, r2][..1] == [r1] && [r1][..0] == [];
    assert SpliceOne([line], r2) == [two] && SpliceOne([two], r1) == [one];
    assert Backward([one], []) == [one] && Backward([two], [r1]) == [one];
  }

  /** applyPatchReplacements */
  method ApplyPatchReplacements(lines: seq<string>, replacements: seq<Replacement<string>>) returns (out: seq<string>)
    ensures out == Backward(lines, replacements)
  {
    out := lines;
    var k := |replacements|;
    assert replacements[..k] == replacements;
    while k > 0
      invariant k <= |replacements|
      invariant Backward(lines, replacements) == Backward(out, replacements[..k])
    {
      k := k - 1;
      assert replacements[..k + 1][..k] == replacements[..k];
      var r := replacements[k];
      var start := if r.start > |out| then |out| else r.start;
      var end := if start + r.oldLen > |out| then |out| else start + r.oldLen;
      out := out[..start] + r.newItems + out[end..];
    }
  }

  // ----- Whole files

  /** The lines of a file; the newline that ends the last one adds none. */
  function FileLines(data: string): seq<string> {
    WithoutLastEmpty(SplitLines(NormalizeNewlines(data)))
  }

  /** The text of the lines, ending in a newline. */
  function FileText(lines: seq<string>): string {
    JoinLines(if lines == [] || lines[|lines| - 1] != "" then lines + [""] else lines)
  }

  lemma OneIsSorted(sorted: seq<Replacement<string>>, reps: seq<Replacement<string>>)
    requires SortedFrom(sorted, reps) && |reps| == 1
    ensures sorted == reps
  {
    StrictIsSorted(sorted, reps);
  }

  /** computeApplyPatchFileUpdate: fails exactly when some hunk has no place.
      Hunks that replace something edit the file as one pass would, as long as no
      end-of-file flag takes one back to lines that are replaced already. */
  method ComputeFileUpdate(data: string, hunks: seq<Hunk>) returns (content: Option<string>)
    ensures content.None? <==> Unplaceable(FileLines(data), hunks)
    ensures content.Some? ==> exists placed, cursor: nat, sorted :: (
      && Placed(FileLines(data), hunks, placed, cursor) && SortedFrom(sorted, placed)
      && content.value == FileText(Backward(FileLines(data), sorted)))
    ensures content.Some? && |hunks| == 1 && hunks[0].oldLines == [] && WithoutLastEmpty(FileLines(data)) == FileLines(data) ==>
      content == Some(FileText(FileLines(data) + hunks[0].newLines))
    ensures forall placed, cursor: nat ::
      Placed(FileLines(data), hunks, placed, cursor) && Replacing(placed) && FlagsClear(hunks, placed) ==>
        OneAfterAnother(|FileLines(data)|, placed) && content == Some(FileText(Forward(FileLines(data), placed, 0)))
  {
    hide Placed, SortedFrom, Stuck, FlagsClear, Replacing, OneAfterAnother, Forward, Backward, NormalizeNewlines, SplitLines,
      JoinLines, Unplaceable;
    var originalLines := SplitLines(NormalizeNewlines(data));
    if |originalLines| > 0 && originalLines[|originalLines| - 1] == "" {
      originalLines := originalLines[..|originalLines| - 1];
    }
    assert originalLines == FileLines(data);
    var replacements := ComputePatchReplacements(originalLines, hunks);
    if replacements.None? {
      forall placed, cursor: nat | Placed(originalLines, hunks, placed, cursor)
        ensures false
      {
        UnplaceableIsNotPlaced(originalLines, hunks, placed, cursor);
      }
      return None;
    }
    var updatedLines := ApplyPatchReplacements(originalLines, replacements.value);
    ghost var placed, cursor: nat :|
      Placed(originalLines, hunks, placed, cursor) && SortedFrom(replacements.value, placed);
    if FlagsClear(hunks, placed) && Replacing(placed) {
      PlainHunksInOrder(originalLines, hunks, placed, cursor);
      BackwardIsForward(originalLines, placed);
    }
    if |hunks| == 1 && hunks[0].oldLines == [] {
      assert hunks == [hunks[0]];
      OneInsertion(originalLines, hunks[0], placed, cursor);
      OneIsSorted(replacements.value, placed);
    }
    forall reps, c: nat | Placed(originalLines, hunks, reps, c)
      ensures reps == placed
    {
      PlacedOnce(originalLines, hunks, reps, c, placed, cursor);
    }
    if |updatedLines| == 0 || updatedLines[|updatedLines| - 1] != "" {
      updatedLines := updatedLines + [""];
    }
    content := Some(JoinLines(updatedLines));
  }

  // ----- Pure insertions

  /** A hunk without old lines puts its lines behind all lines of the file, save a
      last empty one. */
  lemma InsertionsAtEnd(lines: seq<string>, hunks: seq<Hunk>, reps: seq<Replacement<string>>, cursor: nat, k: nat)
    requires Placed(lines, hunks, reps, cursor) && k < |hunks| && hunks[k].oldLines == []
    ensures k < |reps| && reps[k].oldLen == 0 && reps[k].newItems == hunks[k].newLines && reps[k].start <= |lines|
    ensures lines[reps[k].start..] == if lines != [] && lines[|lines| - 1] == "" then [""] else []
  {
    hide Placed, ContextFound;
    var before, after := PlacedPrefix(lines, hunks, reps, cursor, k);
  }

  /** So a patch of one such hunk adds its lines at the end of the file. */
  lemma OneInsertion(lines: seq<string>, h: Hunk, reps: seq<Replacement<string>>, cursor: nat)
    requires Placed(lines, [h], reps, cursor) && h.oldLines == []
    ensures |reps| == 1
    ensures Backward(lines, reps) ==
      if lines != [] && lines[|lines| - 1] == "" then lines[..|lines| - 1] + h.newLines + [""] else lines + h.newLines
  {
    hide Placed, Backward;
    InsertionsAtEnd(lines, [h], reps, cursor, 0);
    PlacedInReach(lines, [h], reps, cursor);
    OneSpliced(lines, reps);
    assert lines == lines[..reps[0].start] + lines[reps[0].start..];
  }

  lemma OneSpliced(lines: seq<string>, reps: seq<Replacement<string>>)
    requires |reps| == 1 && reps[0].oldLen == 0 && reps[0].start <= |lines|
    ensures Backward(lines, reps) == lines[..reps[0].start] + reps[0].newItems + lines[reps[0].start..]
  {
    assert reps[..0] == [];
  }

  /** In any patch whose replacements are disjoint the inserted lines come behind
      all that became of the lines of the file, save a last empty line. */
  lemma InsertionsComeLast(
    lines: seq<string>, hunks: seq<Hunk>, reps: seq<Replacement<string>>, cursor: nat, sorted: seq<Replacement<string>>, k: nat)
    returns (p: nat)
    requires Placed(lines, hunks, reps, cursor) && SortedFrom(sorted, reps) && OneAfterAnother(|lines|, sorted)
    requires k < |hunks| && hunks[k].oldLines == []
    ensures p < |sorted| && sorted[p].start <= |lines| && lines[sorted[p].start..] in {[], [""]}
    ensures OneAfterAnother(sorted[p].start, sorted[..p]) && OneAfterAnother(|lines|, sorted[p + 1..])
    ensures Forward(lines, sorted, 0) ==
      Forward(lines[..sorted[p].start], sorted[..p], 0) + (hunks[k].newLines + Forward(lines, sorted[p + 1..], sorted[p].start))
  {
    hide Placed, Forward;
    InsertionsAtEnd(lines, hunks, reps, cursor, k);
    assert reps[k] in multiset(sorted);
    p :| p < |sorted| && sorted[p] == reps[k];
    PrefixInOrder(|lines|, sorted, p);
    SuffixInOrder(|lines|, sorted, p + 1);
    ForwardCut(lines, sorted, 0, p);
  }

  /** Reading back what was written gives the lines, one last empty line less. */
  lemma FileTextReads(lines: seq<string>)
    requires forall i :: 0 <= i < |lines| ==> '\n' !in lines[i] && '\r' !in lines[i]
    ensures FileLines(FileText(lines)) == WithoutLastEmpty(lines)
  {
    hide SplitLines, JoinLines, NormalizeNewlines;
    var whole := if lines == [] || lines[|lines| - 1] != "" then lines + [""] else lines;
    SplitJoin(whole);
    JoinedWithout(whole, '\r');
    assert NormalizeNewlines(JoinLines(whole)) == JoinLines(whole) by { NothingToNormalize(JoinLines(whole)); }
  }

  lemma NothingToNormalize(s: string)
    requires '\r' !in s
    ensures NormalizeNewlines(s) == s
  {
    NormalizedFixed(s);
  }

  lemma {:induction false} JoinedWithout(lines: seq<string>, c: char)
    requires c != '\n' && forall i :: 0 <= i < |lines| ==> c !in lines[i]
    ensures c !in JoinLines(lines)
  {
    if |lines| > 1 {
      JoinedWithout(lines[1..], c);
    }
  }

  /** A pure insertion goes before a last empty line. When another hunk replaces
      that line and one before it, the inserted line is lost. */
  lemma OverlapLosesInsertion(keep: string, put: string, inserted: string)
    ensures var lines, hunks := [keep, ""], [Hunk(None, [keep, ""], [put, ""], false), Hunk(None, [], [inserted], false)];
      var reps := [Replacement(0, 2, [put, ""]), Replacement(1, 0, [inserted])];
      && Placed(lines, hunks, reps, 2) && !OneAfterAnother(2, reps)
      && Backward(lines, reps) == [put, "", ""]
  {
    var lines := [keep, ""];
    var h1, h2 := Hunk(None, [keep, ""], [put, ""], false), Hunk(None, [], [inserted], false);
    var r1, r2 := Replacement(0, 2, [put, ""]), Replacement(1, 0, [inserted]);
    NonePlaced(lines);
    assert FirstMatch(lines, lines, 0, 0, 0);
    assert ContextFound(lines, h1, 0, 0) && Located(lines, h1, 0, r1);
    PlacedSnoc(lines, [], [], 0, h1, r1, 2);
    PlacedSnoc(lines, [h1], [r1], 2, h2, r2, 2);
    assert [] + [h1] == [h1] && [] + [r1] == [r1] && [h1] + [h2] == [h1, h2] && [r1] + [r2] == [r1, r2];
    assert [r1, r2][..1] == [r1] && [r1][..0] == [];
    assert SpliceOne(lines, r2) == [keep, inserted, ""];
    assert SpliceOne([keep, inserted, ""], r1) == [put, "", ""];
    assert Backward([put, "", ""], []) == [put, "", ""];
    assert Backward([keep, inserted, ""], [r1]) == [put, "", ""];
  }
}
