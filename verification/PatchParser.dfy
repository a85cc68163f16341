/** The patch text format: reading it, and printing it so that it is read back. */
module PatchParser {
  import opened Messages
  import opened Text
  import opened PatchSplice

  const BEGIN_PATCH := "*** Begin Patch"
  const END_PATCH := "*** End Patch"
  const ADD_FILE := "*** Add File: "
  const DELETE_FILE := "*** Delete File: "
  const UPDATE_FILE := "*** Update File: "
  const MOVE_TO := "*** Move to: "
  const END_OF_FILE := "*** End of File"

  datatype Operation =
    | AddFile(path: string, addLines: seq<string>)
    | DeleteFile(path: string)
    | UpdateFile(path: string, movePath: string, hunks: seq<Hunk>)

  datatype ParseError = BadBoundary | EmptyPath | EmptyUpdate | BadHeader | MissingContext | EmptyHunk | BadLine

  /** A value read from the first `consumed` lines. */
  datatype Parsed<T> = Parsed(value: T, consumed: nat) | ParseError(error: ParseError)

  // ----- Hunks

  function AddLine(h: Hunk, line: string): Hunk
    requires line == "" || line[0] == ' ' || line[0] == '+' || line[0] == '-'
  {
    if line == "" then Hunk(h.context, h.oldLines + [""], h.newLines + [""], h.atEnd)
    else if line[0] == ' ' then Hunk(h.context, h.oldLines + [line[1..]], h.newLines + [line[1..]], h.atEnd)
    else if line[0] == '+' then Hunk(h.context, h.oldLines, h.newLines + [line[1..]], h.atEnd)
    else Hunk(h.context, h.oldLines + [line[1..]], h.newLines, h.atEnd)
  }

  predicate IsBodyLine(line: string) {
    line == "" || line[0] == ' ' || line[0] == '+' || line[0] == '-'
  }

  /** The body lines at the start of `lines`, `count` of them read before. */
  function BodyAt(lines: seq<string>, count: nat, h: Hunk): (r: Parsed<Hunk>)
    ensures r.Parsed? ==> count <= r.consumed <= count + |lines| && 0 < r.consumed
  {
    if lines == [] then
      if count == 0 then ParseError(EmptyHunk) else Parsed(h, count)
    else if TrimSpace(lines[0]) == END_OF_FILE then
      if count == 0 then ParseError(EmptyHunk) else Parsed(Hunk(h.context, h.oldLines, h.newLines, true), count + 1)
    else if IsBodyLine(lines[0]) then BodyAt(lines[1..], count + 1, AddLine(h, lines[0]))
    else if count == 0 then ParseError(BadLine)
    else Parsed(h, count)
  }

  /** The context line at the start of a hunk: its text, and whether there is one. */
  function ContextAt(line: string, allowMissing: bool): Parsed<Option<string>> {
    var first := TrimSpace(line);
    if first == "@@" then Parsed(None, 1)
    else if "@@ " <= first then Parsed(Some(first[3..]), 1)
    else if !allowMissing then ParseError(MissingContext)
    else Parsed(None, 0)
  }

  function HunkAt(lines: seq<string>, allowMissing: bool): (r: Parsed<Hunk>)
    ensures r.Parsed? ==> 0 < r.consumed <= |lines|
  {
    if lines == [] then ParseError(EmptyHunk)
    else
      match ContextAt(lines[0], allowMissing)
      case ParseError(e) => ParseError(e)
      case Parsed(context, skip) =>
        if skip >= |lines| then ParseError(EmptyHunk)
        else
          match BodyAt(lines[skip..], 0, Hunk(context, [], [], false))
          case ParseError(e) => ParseError(e)
          case Parsed(h, used) => Parsed(h, skip + used)
  }

  method ParsePatchChunk(lines: seq<string>, allowMissingContext: bool) returns (r: Parsed<Hunk>)
    ensures r == HunkAt(lines, allowMissingContext)
  {
    if |lines| == 0 {
      return ParseError(EmptyHunk);
    }
    var context := ContextAt(lines[0], allowMissingContext);
    if context.ParseError? {
      return ParseError(context.error);
    }
    var startIndex := context.consumed;
    if startIndex >= |lines| {
      return ParseError(EmptyHunk);
    }
    var chunk := Hunk(context.value, [], [], false);
    var body := lines[startIndex..];
    ghost var whole := BodyAt(body, 0, chunk);
    var parsed := 0;
    while parsed < |body|
      invariant parsed <= |body| && BodyAt(body[parsed..], parsed, chunk) == whole
    {
      var line := body[parsed];
      assert body[parsed..][1..] == body[parsed + 1..];
      if TrimSpace(line) == END_OF_FILE {
        if parsed == 0 {
          return ParseError(EmptyHunk);
        }
        return Parsed(Hunk(chunk.context, chunk.oldLines, chunk.newLines, true), startIndex + parsed + 1);
      }
      if !IsBodyLine(line) {
        return if parsed == 0 then ParseError(BadLine) else Parsed(chunk, startIndex + parsed);
      }
      chunk := AddLine(chunk, line);
      parsed := parsed + 1;
    }
    return if parsed == 0 then ParseError(EmptyHunk) else Parsed(chunk, startIndex + parsed);
  }

  /** Inside a hunk a line without any character reads like an unchanged empty line. */
  lemma {:induction false} EmptyIsUnchanged(lines: seq<string>, i: nat, count: nat, h: Hunk)
    requires i < |lines| && lines[i] == ""
    ensures BodyAt(lines, count, h) == BodyAt(lines[i := " "], count, h)
    decreases |lines|
  {
    var other := lines[i := " "];
    if i == 0 {
      assert other[1..] == lines[1..] && " "[1..] == "";
      assert TrimSpace("") == "" && TrimSpace(" ") == "";
    } else {
      assert other[1..] == lines[1..][i - 1 := " "];
      if IsBodyLine(lines[0]) {
        EmptyIsUnchanged(lines[1..], i - 1, count + 1, AddLine(h, lines[0]));
      }
    }
  }

  /** The first hunk of a file reads without its context line as it does with an
      empty one. */
  lemma ContextMayBeLeftOut(lines: seq<string>)
    requires lines != [] && TrimSpace(lines[0]) != "@@" && !("@@ " <= TrimSpace(lines[0]))
    ensures var whole := HunkAt(["@@"] + lines, true);
      HunkAt(lines, true) == if whole.Parsed? then Parsed(whole.value, whole.consumed - 1) else whole
  {
    assert TrimSpace("@@") == "@@";
    assert (["@@"] + lines)[1..] == lines && lines[0..] == lines;
  }

  // ----- Operations

  /** The hunks at the start of `lines`, up to a line of stars. */
  function HunksAt(lines: seq<string>, allowMissing: bool): (r: Parsed<seq<Hunk>>)
    ensures r.Parsed? ==> r.consumed <= |lines|
    decreases |lines|
  {
    if lines == [] then Parsed([], 0)
    else if TrimSpace(lines[0]) == "" then Shifted(HunksAt(lines[1..], allowMissing), [], 1)
    else if "***" <= TrimSpace(lines[0]) then Parsed([], 0)
    else
      match HunkAt(lines, allowMissing)
      case ParseError(e) => ParseError(e)
      case Parsed(h, used) => Shifted(HunksAt(lines[used..], false), [h], used)
  }

  function Shifted(r: Parsed<seq<Hunk>>, before: seq<Hunk>, used: nat): Parsed<seq<Hunk>> {
    match r
    case ParseError(e) => ParseError(e)
    case Parsed(hunks, consumed) => Parsed(before + hunks, used + consumed)
  }

  lemma ShiftNothing(r: Parsed<seq<Hunk>>)
    ensures Shifted(r, [], 0) == r
  {
    if r.Parsed? {
      assert [] + r.value == r.value;
    }
  }

  lemma ShiftEnd(before: seq<Hunk>, used: nat)
    ensures Shifted(Parsed([], 0), before, used) == Parsed(before, used)
  {
    assert before + [] == before;
  }

  lemma ShiftError(e: ParseError, before: seq<Hunk>, used: nat)
    ensures Shifted(ParseError(e), before, used) == ParseError(e)
  {
  }

  lemma ShiftTwice(r: Parsed<seq<Hunk>>, a: seq<Hunk>, m: nat, b: seq<Hunk>, n: nat)
    ensures Shifted(Shifted(r, b, n), a, m) == Shifted(r, a + b, m + n)
  {
    if r.Parsed? {
      assert a + (b + r.value) == a + b + r.value;
    }
  }

  /** The lines that an added file consists of. */
  function PlusLines(lines: seq<string>): (r: seq<string>)
    ensures |r| <= |lines|
  {
    if lines != [] && "+" <= lines[0] then [lines[0][1..]] + PlusLines(lines[1..]) else []
  }

  /** The line after an update header, if it names a new path. */
  function MoveAt(lines: seq<string>): (r: Parsed<string>)
    ensures r.Parsed? ==> r.consumed <= |lines|
  {
    if lines == [] || !(MOVE_TO <= TrimSpace(lines[0])) then Parsed("", 0)
    else
      var path := TrimSpace(TrimSpace(lines[0])[|MOVE_TO|..]);
      if path == "" then ParseError(EmptyPath) else Parsed(path, 1)
  }

  function UpdateAt(path: string, lines: seq<string>): (r: Parsed<Operation>)
    ensures r.Parsed? ==> r.consumed <= |lines| + 1 && 0 < r.consumed
  {
    match MoveAt(lines)
    case ParseError(e) => ParseError(e)
    case Parsed(movePath, skip) =>
      match HunksAt(lines[skip..], true)
      case ParseError(e) => ParseError(e)
      case Parsed(hunks, used) =>
        if hunks == [] then ParseError(EmptyUpdate) else Parsed(UpdateFile(path, movePath, hunks), 1 + skip + used)
  }

  function AddAt(path: string, lines: seq<string>): (r: Parsed<Operation>)
    ensures r.Parsed? && 0 < r.consumed <= |lines| + 1
  {
    Parsed(AddFile(path, PlusLines(lines)), 1 + |PlusLines(lines)|)
  }

  function OperationAt(lines: seq<string>): (r: Parsed<Operation>)
    requires lines != []
    ensures r.Parsed? ==> 0 < r.consumed <= |lines|
  {
    var header := TrimSpace(lines[0]);
    if ADD_FILE <= header then
      var path := TrimSpace(header[|ADD_FILE|..]);
      if path == "" then ParseError(EmptyPath) else AddAt(path, lines[1..])
    else if DELETE_FILE <= header then
      var path := TrimSpace(header[|DELETE_FILE|..]);
      if path == "" then ParseError(EmptyPath) else Parsed(DeleteFile(path), 1)
    else if UPDATE_FILE <= header then
      var path := TrimSpace(header[|UPDATE_FILE|..]);
      if path == "" then ParseError(EmptyPath) else UpdateAt(path, lines[1..])
    else ParseError(BadHeader)
  }

  method ParsePatchOperation(lines: seq<string>) returns (r: Parsed<Operation>)
    requires lines != []
    ensures r == OperationAt(lines)
    ensures r.Parsed? ==> 0 < r.consumed <= |lines|
  {
    hide TrimSpace, UpdateAt, AddAt;
    var header := TrimSpace(lines[0]);
    if ADD_FILE <= header {
      var path := TrimSpace(header[|ADD_FILE|..]);
      if path == "" {
        return ParseError(EmptyPath);
      }
      r := ParseAdd(path, lines);
      return;
    }
    if DELETE_FILE <= header {
      var path := TrimSpace(header[|DELETE_FILE|..]);
      return if path == "" then ParseError(EmptyPath) else Parsed(DeleteFile(path), 1);
    }
    if UPDATE_FILE <= header {
      var path := TrimSpace(header[|UPDATE_FILE|..]);
      if path == "" {
        return ParseError(EmptyPath);
      }
      r := ParseUpdate(path, lines);
      return;
    }
    return ParseError(BadHeader);
  }

  method ParseAdd(path: string, lines: seq<string>) returns (r: Parsed<Operation>)
    requires lines != []
    ensures r == AddAt(path, lines[1..])
  {
    var consumed := 1;
    var addLines: seq<string> := [];
    assert addLines + PlusLines(lines[1..]) == PlusLines(lines[1..]);
    while consumed < |lines| && "+" <= lines[consumed]
      invariant 1 <= consumed <= |lines| && |addLines| == consumed - 1
      invariant addLines + PlusLines(lines[consumed..]) == PlusLines(lines[1..])
    {
      assert lines[consumed..][1..] == lines[consumed + 1..];
      var line := lines[consumed][1..];
      assert addLines + ([line] + PlusLines(lines[consumed + 1..])) == addLines + [line] + PlusLines(lines[consumed + 1..]);
      addLines := addLines + [line];
      consumed := consumed + 1;
    }
    assert PlusLines(lines[consumed..]) == [];
    assert addLines + [] == addLines;
    return Parsed(AddFile(path, addLines), consumed);
  }

  method ParseUpdate(path: string, lines: seq<string>) returns (r: Parsed<Operation>)
    requires lines != []
    ensures r == UpdateAt(path, lines[1..])
  {
    hide HunkAt, MoveAt, TrimSpace, Shifted;
    var move := MoveAt(lines[1..]);
    if move.ParseError? {
      return ParseError(move.error);
    }
    var consumed := 1 + move.consumed;
    assert lines[1..][move.consumed..] == lines[consumed..];
    ghost var all := HunksAt(lines[consumed..], true);
    ShiftNothing(all);
    var start := consumed;
    var chunks: seq<Hunk> := [];
    while consumed < |lines|
      invariant start <= consumed <= |lines|
      invariant all == Shifted(HunksAt(lines[consumed..], |chunks| == 0), chunks, consumed - start)
      decreases |lines| - consumed
    {
      if TrimSpace(lines[consumed]) == "" {
        assert lines[consumed..][1..] == lines[consumed + 1..];
        ShiftTwice(HunksAt(lines[consumed + 1..], |chunks| == 0), chunks, consumed - start, [], 1);
        assert chunks + [] == chunks;
        consumed := consumed + 1;
        continue;
      }
      if "***" <= TrimSpace(lines[consumed]) {
        break;
      }
      var chunk := ParsePatchChunk(lines[consumed..], |chunks| == 0);
      if chunk.ParseError? {
        ShiftError(chunk.error, chunks, consumed - start);
        return ParseError(chunk.error);
      }
      ShiftTwice(HunksAt(lines[consumed + chunk.consumed..], false), chunks, consumed - start, [chunk.value], chunk.consumed);
      assert lines[consumed..][chunk.consumed..] == lines[consumed + chunk.consumed..];
      chunks := chunks + [chunk.value];
      consumed := consumed + chunk.consumed;
    }
    ShiftEnd(chunks, consumed - start);
    if |chunks| == 0 {
      return ParseError(EmptyUpdate);
    }
    return Parsed(UpdateFile(path, move.value, chunks), consumed);
  }

  // ----- Patches

  predicate Bounded(lines: seq<string>) {
    lines != [] && TrimSpace(lines[0]) == BEGIN_PATCH && TrimSpace(lines[|lines| - 1]) == END_PATCH
  }

  predicate OpensHereDocument(line: string) {
    var first := TrimSpace(line);
    first == "<<EOF" || first == "<<'EOF'" || first == "<<\"EOF\""
  }

  /** strings.HasSuffix */
  predicate HasSuffix(s: string, suffix: string) {
    |suffix| <= |s| && s[|s| - |suffix|..] == suffix
  }

  /** The lines of a patch from its first to its last marker; a patch given as
      a shell here-document is unwrapped. */
  function LinesOf(patch: string): (r: Option<seq<string>>)
    ensures r.Some? ==> |r.value| >= 2
  {
    var lines := SplitLines(TrimSpace(NormalizeNewlines(patch)));
    if Bounded(lines) then Some(lines)
    else if |lines| >= 4 && OpensHereDocument(lines[0]) && HasSuffix(TrimSpace(lines[|lines| - 1]), "EOF") then
      var inner := lines[1..|lines| - 1];
      if Bounded(inner) then Some(inner) else None
    else None
  }

  /** The operations that the lines between the markers hold. */
  function OperationsIn(body: seq<string>): (r: Parsed<seq<Operation>>)
    ensures r.Parsed? ==> r.consumed == |body|
    decreases |body|
  {
    if body == [] then Parsed([], 0)
    else if TrimSpace(body[0]) == "" then Then([], 1, OperationsIn(body[1..]))
    else
      match OperationAt(body)
      case ParseError(e) => ParseError(e)
      case Parsed(op, used) => Then([op], used, OperationsIn(body[used..]))
  }

  function Then(before: seq<Operation>, used: nat, r: Parsed<seq<Operation>>): Parsed<seq<Operation>> {
    match r
    case ParseError(e) => ParseError(e)
    case Parsed(ops, consumed) => Parsed(before + ops, used + consumed)
  }

  lemma ThenNothing(r: Parsed<seq<Operation>>)
    ensures Then([], 0, r) == r
  {
    if r.Parsed? {
      assert [] + r.value == r.value;
    }
  }

  lemma ThenEnd(before: seq<Operation>, used: nat)
    ensures Then(before, used, Parsed([], 0)) == Parsed(before, used)
  {
    assert before + [] == before;
  }

  lemma ThenError(e: ParseError, before: seq<Operation>, used: nat)
    ensures Then(before, used, ParseError(e)) == ParseError(e)
  {
  }

  lemma ThenTwice(r: Parsed<seq<Operation>>, a: seq<Operation>, m: nat, b: seq<Operation>, n: nat)
    ensures Then(a, m, Then(b, n, r)) == Then(a + b, m + n, r)
  {
    if r.Parsed? {
      assert a + (b + r.value) == a + b + r.value;
    }
  }

  function OperationsOf(patch: string): Parsed<seq<Operation>> {
    match LinesOf(patch)
    case None => ParseError(BadBoundary)
    case Some(lines) => OperationsIn(lines[1..|lines| - 1])
  }

  /** parseApplyPatch: every step of the loop consumes a line, so it ends. */
  method ParseApplyPatch(patch: string) returns (r: Parsed<seq<Operation>>)
    ensures r == OperationsOf(patch)
  {
    hide OperationAt, TrimSpace, Bounded, Then, LinesOf;
    var lines := LinesOf(patch);
    if lines.None? {
      return ParseError(BadBoundary);
    }
    var body := lines.value[1..|lines.value| - 1];
    ghost var all := OperationsIn(body);
    var ops: seq<Operation> := [];
    var total: nat := 0;
    ThenNothing(all);
    while |body| > 0
      invariant all == Then(ops, total, OperationsIn(body))
      decreases |body|
    {
      if TrimSpace(body[0]) == "" {
        ThenTwice(OperationsIn(body[1..]), ops, total, [], 1);
        assert ops + [] == ops;
        body, total := body[1..], total + 1;
        continue;
      }
      var op := ParsePatchOperation(body);
      if op.ParseError? {
        ThenError(op.error, ops, total);
        return ParseError(op.error);
      }
      ThenTwice(OperationsIn(body[op.consumed..]), ops, total, [op.value], op.consumed);
      ops := ops + [op.value];
      body, total := body[op.consumed..], total + op.consumed;
    }
    ThenEnd(ops, total);
    return Parsed(ops, total);
  }
}
