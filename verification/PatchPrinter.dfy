/** Printing a patch in its canonical form, and reading it back. */
module PatchPrinter {
  import opened Messages
  import opened Text
  import opened PatchSplice
  import opened PatchParser

  /** One line of a hunk: unchanged, removed or added. */
  datatype Edit = Keep(text: string) | Remove(text: string) | Add(text: string)

  /** A hunk as it is written: its edits in order. */
  datatype Script = Script(context: Option<string>, edits: seq<Edit>, atEnd: bool)

  datatype Change =
    | Create(path: string, lines: seq<string>)
    | Delete(path: string)
    | Update(path: string, movePath: string, scripts: seq<Script>)

  // ----- What is printed

  function EditLine(e: Edit): string {
    match e
    case Keep(text) => " " + text
    case Remove(text) => "-" + text
    case Add(text) => "+" + text
  }

  function EditLines(edits: seq<Edit>): seq<string> {
    if edits == [] then [] else [EditLine(edits[0])] + EditLines(edits[1..])
  }

  function ContextLine(context: Option<string>): string {
    if context.None? then "@@" else "@@ " + context.value
  }

  function EndLine(atEnd: bool): seq<string> {
    if atEnd then [END_OF_FILE] else []
  }

  function PrintScript(s: Script): seq<string> {
    [ContextLine(s.context)] + (EditLines(s.edits) + EndLine(s.atEnd))
  }

  function PrintScripts(scripts: seq<Script>): seq<string> {
    if scripts == [] then [] else PrintScript(scripts[0]) + PrintScripts(scripts[1..])
  }

  function PlusAll(lines: seq<string>): seq<string> {
    if lines == [] then [] else ["+" + lines[0]] + PlusAll(lines[1..])
  }

  function MoveLine(movePath: string): seq<string> {
    if movePath == "" then [] else [MOVE_TO + movePath]
  }

  function PrintChange(c: Change): seq<string> {
    match c
    case Create(path, lines) => [ADD_FILE + path] + PlusAll(lines)
    case Delete(path) => [DELETE_FILE + path]
    case Update(path, movePath, scripts) => [UPDATE_FILE + path] + (MoveLine(movePath) + PrintScripts(scripts))
  }

  function PrintChanges(cs: seq<Change>): seq<string> {
    if cs == [] then [] else PrintChange(cs[0]) + PrintChanges(cs[1..])
  }

  function PrintPatch(cs: seq<Change>): string {
    JoinLines([BEGIN_PATCH] + PrintChanges(cs) + [END_PATCH])
  }

  // ----- What it means

  function OldOf(edits: seq<Edit>): seq<string> {
    if edits == [] then []
    else (if edits[0].Add? then [] else [edits[0].text]) + OldOf(edits[1..])
  }

  function NewOf(edits: seq<Edit>): seq<string> {
    if edits == [] then []
    else (if edits[0].Remove? then [] else [edits[0].text]) + NewOf(edits[1..])
  }

  function HunkOf(s: Script): Hunk {
    Hunk(s.context, OldOf(s.edits), NewOf(s.edits), s.atEnd)
  }

  function HunksOf(scripts: seq<Script>): seq<Hunk> {
    if scripts == [] then [] else [HunkOf(scripts[0])] + HunksOf(scripts[1..])
  }

  function OperationOf(c: Change): Operation {
    match c
    case Create(path, lines) => AddFile(path, lines)
    case Delete(path) => DeleteFile(path)
    case Update(path, movePath, scripts) => UpdateFile(path, movePath, HunksOf(scripts))
  }

  function OperationsFor(cs: seq<Change>): seq<Operation> {
    if cs == [] then [] else [OperationOf(cs[0])] + OperationsFor(cs[1..])
  }

  // ----- What can be printed

  predicate OneLine(s: string) {
    '\n' !in s && '\r' !in s
  }

  predicate PrintablePath(path: string) {
    Trimmed(path) && OneLine(path)
  }

  /** An unchanged line that reads like the end-of-file marker cannot be told
      from it. */
  predicate MarkerLine(e: Edit) {
    e.Keep? && TrimSpace(" " + e.text) == END_OF_FILE
  }

  predicate PrintableContext(context: Option<string>) {
    context.Some? ==> context.value != "" && !IsSpace(context.value[|context.value| - 1]) && OneLine(context.value)
  }

  predicate WellFormed(s: Script) {
    s.edits != [] && PrintableContext(s.context) && forall e :: e in s.edits ==> OneLine(e.text)
  }

  predicate NoMarkers(s: Script) {
    forall i :: 0 <= i < |s.edits| ==> !MarkerLine(s.edits[i])
  }

  predicate Printable(c: Change) {
    match c
    case Create(path, lines) => PrintablePath(path) && forall l :: l in lines ==> OneLine(l)
    case Delete(path) => PrintablePath(path)
    case Update(path, movePath, scripts) =>
      && PrintablePath(path) && (movePath == "" || PrintablePath(movePath)) && scripts != []
      && forall s :: s in scripts ==> WellFormed(s) && NoMarkers(s)
  }

  // ----- Lines

  lemma {:induction false} TrimEndFirst(s: string)
    requires s != "" && !IsSpace(s[0])
    ensures TrimEnd(IsSpace, s) != "" && TrimEnd(IsSpace, s)[0] == s[0]
  {
    if IsSpace(s[|s| - 1]) {
      TrimEndFirst(s[..|s| - 1]);
    }
  }

  /** Trimming never touches a first character that is not white space. */
  lemma TrimFirst(s: string)
    requires s != "" && !IsSpace(s[0])
    ensures TrimSpace(s) != "" && TrimSpace(s)[0] == s[0]
  {
    TrimEndFirst(s);
  }

  lemma Header(prefix: string, path: string)
    requires prefix != "" && !IsSpace(prefix[0]) && path != "" && !IsSpace(path[|path| - 1])
    ensures TrimSpace(prefix + path) == prefix + path
    ensures prefix <= prefix + path && (prefix + path)[|prefix|..] == path
  {
    TrimmedFixed(prefix + path);
  }

  /** What may follow a hunk: nothing, or a line that cannot belong to it. */
  predicate Stops(rest: seq<string>) {
    rest != [] ==> rest[0] != "" && (rest[0][0] == '@' || rest[0][0] == '*') && TrimSpace(rest[0]) != END_OF_FILE
  }

  // ----- Reading hunks back

  lemma EditIsBody(e: Edit)
    requires !MarkerLine(e)
    ensures IsBodyLine(EditLine(e)) && TrimSpace(EditLine(e)) != END_OF_FILE
  {
    if !e.Keep? {
      TrimFirst(EditLine(e));
    }
  }

  lemma AddEdit(h: Hunk, e: Edit, rest: seq<Edit>)
    requires IsBodyLine(EditLine(e))
    ensures var h' := AddLine(h, EditLine(e));
      && h'.context == h.context && h'.atEnd == h.atEnd
      && h'.oldLines + OldOf(rest) == h.oldLines + OldOf([e] + rest)
      && h'.newLines + NewOf(rest) == h.newLines + NewOf([e] + rest)
  {
    assert ([e] + rest)[0] == e && ([e] + rest)[1..] == rest;
    assert EditLine(e)[1..] == e.text;
    match e
    case Keep(text) =>
      assert h.oldLines + [text] + OldOf(rest) == h.oldLines + ([text] + OldOf(rest));
      assert h.newLines + [text] + NewOf(rest) == h.newLines + ([text] + NewOf(rest));
    case Remove(text) =>
      assert h.oldLines + [text] + OldOf(rest) == h.oldLines + ([text] + OldOf(rest));
      assert [] + NewOf(rest) == NewOf(rest);
    case Add(text) =>
      assert h.newLines + [text] + NewOf(rest) == h.newLines + ([text] + NewOf(rest));
      assert [] + OldOf(rest) == OldOf(rest);
  }

  lemma BodyEnds(atEnd: bool, rest: seq<string>, count: nat, h: Hunk)
    requires count > 0 && !h.atEnd && Stops(rest)
    ensures BodyAt(EndLine(atEnd) + rest, count, h) ==
      Parsed(Hunk(h.context, h.oldLines, h.newLines, atEnd), count + |EndLine(atEnd)|)
  {
    var lines := EndLine(atEnd) + rest;
    if atEnd {
      TrimmedFixed(END_OF_FILE);
      assert lines[0] == END_OF_FILE;
    } else {
      assert lines == rest;
    }
  }

  lemma {:induction false} BodyReads(edits: seq<Edit>, atEnd: bool, rest: seq<string>, count: nat, h: Hunk)
    requires forall i :: 0 <= i < |edits| ==> !MarkerLine(edits[i])
    requires count + |edits| > 0 && !h.atEnd && Stops(rest)
    ensures BodyAt(EditLines(edits) + EndLine(atEnd) + rest, count, h) ==
      Parsed(Hunk(h.context, h.oldLines + OldOf(edits), h.newLines + NewOf(edits), atEnd),
             count + |edits| + |EndLine(atEnd)|)
    decreases |edits|
  {
    hide Stops, TrimSpace, MarkerLine, IsBodyLine, EditLine, AddLine;
    var after := EndLine(atEnd) + rest;
    var lines := EditLines(edits) + EndLine(atEnd) + rest;
    assert lines == EditLines(edits) + after;
    if edits == [] {
      assert lines == after && h.oldLines + [] == h.oldLines && h.newLines + [] == h.newLines;
      BodyEnds(atEnd, rest, count, h);
    } else {
      var e, others := edits[0], edits[1..];
      assert edits == [e] + others;
      EditIsBody(e);
      AddEdit(h, e, others);
      assert lines[0] == EditLine(e) && lines[1..] == EditLines(others) + EndLine(atEnd) + rest;
      BodyReads(others, atEnd, rest, count + 1, AddLine(h, EditLine(e)));
    }
  }

  lemma ContextReads(context: Option<string>, allowMissing: bool)
    requires PrintableContext(context)
    ensures ContextAt(ContextLine(context), allowMissing) == Parsed(context, 1)
    ensures TrimSpace(ContextLine(context)) == ContextLine(context)
  {
    if context.Some? {
      Header("@@ ", context.value);
    } else {
      TrimmedFixed("@@");
    }
  }

  lemma {:induction false} EditLinesLength(edits: seq<Edit>)
    ensures |EditLines(edits)| == |edits|
  {
    if edits != [] {
      EditLinesLength(edits[1..]);
    }
  }

  lemma ScriptLines(s: Script, rest: seq<string>)
    ensures var lines := PrintScript(s) + rest;
      && lines != [] && lines[0] == ContextLine(s.context)
      && lines[1..] == EditLines(s.edits) + EndLine(s.atEnd) + rest
      && lines[1..] == EditLines(s.edits) + (EndLine(s.atEnd) + rest)
      && |PrintScript(s)| == 1 + |s.edits| + |EndLine(s.atEnd)| <= |lines|
  {
    hide EditLines, EndLine, ContextLine;
    EditLinesLength(s.edits);
  }

  /** A printed hunk is read back as what it means, wherever it stands. */
  lemma ScriptReads(s: Script, rest: seq<string>, allowMissing: bool)
    requires WellFormed(s) && NoMarkers(s) && Stops(rest)
    ensures HunkAt(PrintScript(s) + rest, allowMissing) == Parsed(HunkOf(s), |PrintScript(s)|)
  {
    hide BodyAt, ContextAt, ContextLine, TrimSpace, Stops, OneLine, PrintScript, EditLines, EndLine, OldOf, NewOf;
    ScriptLines(s, rest);
    ContextReads(s.context, allowMissing);
    BodyReads(s.edits, s.atEnd, rest, 0, Hunk(s.context, [], [], false));
    assert [] + OldOf(s.edits) == OldOf(s.edits) && [] + NewOf(s.edits) == NewOf(s.edits);
  }

  /** The first marker line among the edits ends the hunk there. */
  lemma {:induction false} BodyCut(edits: seq<Edit>, i: nat, after: seq<string>, count: nat, h: Hunk)
    requires i < |edits| && MarkerLine(edits[i]) && forall j :: 0 <= j < i ==> !MarkerLine(edits[j])
    ensures var r := BodyAt(EditLines(edits) + after, count, h);
      if count + i == 0 then r == ParseError(EmptyHunk) else r.Parsed? && r.value.atEnd && r.consumed == count + i + 1
    decreases i
  {
    var lines := EditLines(edits) + after;
    assert lines[0] == EditLine(edits[0]);
    if i > 0 {
      assert edits == [edits[0]] + edits[1..];
      EditIsBody(edits[0]);
      AddEdit(h, edits[0], edits[1..]);
      assert lines[1..] == EditLines(edits[1..]) + after;
      BodyCut(edits[1..], i - 1, after, count + 1, AddLine(h, lines[0]));
    }
  }

  lemma FirstMarker(edits: seq<Edit>) returns (i: nat)
    requires exists k :: 0 <= k < |edits| && MarkerLine(edits[k])
    ensures i < |edits| && MarkerLine(edits[i]) && forall j :: 0 <= j < i ==> !MarkerLine(edits[j])
  {
    i := 0;
    while !MarkerLine(edits[i])
      invariant i < |edits| && forall j :: 0 <= j < i ==> !MarkerLine(edits[j])
      invariant exists k :: i <= k < |edits| && MarkerLine(edits[k])
      decreases |edits| - i
    {
      i := i + 1;
    }
  }

  /** Exactly the hunks without such lines are read back. */
  lemma ScriptReadsExactly(s: Script, rest: seq<string>, allowMissing: bool)
    requires WellFormed(s) && Stops(rest)
    ensures HunkAt(PrintScript(s) + rest, allowMissing) == Parsed(HunkOf(s), |PrintScript(s)|) <==> NoMarkers(s)
  {
    if NoMarkers(s) {
      ScriptReads(s, rest, allowMissing);
    } else {
      hide TrimSpace, BodyAt, ContextAt, ContextLine, OldOf, NewOf, OneLine, Stops, EditLines, EndLine, PrintScript;
      var i := FirstMarker(s.edits);
      ScriptLines(s, rest);
      ContextReads(s.context, allowMissing);
      BodyCut(s.edits, i, EndLine(s.atEnd) + rest, 0, Hunk(s.context, [], [], false));
      EndLineMarks(s.atEnd);
    }
  }

  lemma EndLineMarks(atEnd: bool)
    ensures |EndLine(atEnd)| == if atEnd then 1 else 0
  {
  }

  /** What may follow an operation: nothing, or another operation's header. */
  predicate HeaderNext(rest: seq<string>) {
    rest != [] ==> "*** " <= rest[0] && TrimSpace(rest[0]) == rest[0] && rest[0] != END_OF_FILE
  }

  lemma ScriptStart(s: Script, rest: seq<string>)
    requires WellFormed(s)
    ensures var lines := PrintScript(s) + rest;
      && PrintScript(s) != [] && lines != [] && TrimSpace(lines[0]) == lines[0] == ContextLine(s.context)
      && lines[0] != "" && !("***" <= lines[0])
  {
    ContextReads(s.context, false);
    assert ContextLine(s.context)[0] == '@';
  }

  lemma {:induction false} ScriptsRead(scripts: seq<Script>, rest: seq<string>, allowMissing: bool)
    requires (forall s :: s in scripts ==> WellFormed(s) && NoMarkers(s)) && HeaderNext(rest)
    ensures HunksAt(PrintScripts(scripts) + rest, allowMissing) == Parsed(HunksOf(scripts), |PrintScripts(scripts)|)
    decreases |scripts|
  {
    hide HunkAt, ContextAt, PrintScript, WellFormed, NoMarkers, Stops, HunkOf, TrimSpace;
    var lines := PrintScripts(scripts) + rest;
    if scripts == [] {
      assert lines == rest;
      assert rest != [] ==> "***" <= rest[0];
    } else {
      var s, others := scripts[0], scripts[1..];
      var after := PrintScripts(others) + rest;
      assert lines == PrintScript(s) + after;
      assert s in scripts && forall o :: o in others ==> o in scripts;
      AfterScript(others, rest);
      ScriptStart(s, after);
      ScriptReads(s, after, allowMissing);
      assert lines[|PrintScript(s)|..] == after;
      ScriptsRead(others, rest, false);
    }
  }

  lemma AfterScript(scripts: seq<Script>, rest: seq<string>)
    requires (forall s :: s in scripts ==> WellFormed(s)) && HeaderNext(rest)
    ensures Stops(PrintScripts(scripts) + rest)
  {
    var lines := PrintScripts(scripts) + rest;
    if scripts == [] {
      assert lines == rest;
    } else {
      assert scripts[0] in scripts;
      assert lines[0] == ContextLine(scripts[0].context);
      ContextReads(scripts[0].context, false);
    }
  }

  // ----- Reading operations back

  lemma {:induction false} PlusReads(lines: seq<string>, rest: seq<string>)
    requires HeaderNext(rest)
    ensures PlusLines(PlusAll(lines) + rest) == lines
  {
    var all := PlusAll(lines) + rest;
    if lines == [] {
      assert all == rest;
      if rest != [] {
        assert rest[0][0] == '*';
      }
    } else {
      assert all[0] == "+" + lines[0] && all[1..] == PlusAll(lines[1..]) + rest;
      PlusReads(lines[1..], rest);
      assert all[0][1..] == lines[0];
    }
  }

  lemma {:induction false} PlusAllLength(lines: seq<string>)
    ensures |PlusAll(lines)| == |lines|
  {
    if lines != [] {
      PlusAllLength(lines[1..]);
    }
  }

  lemma {:induction false} HunksOfLength(scripts: seq<Script>)
    ensures |HunksOf(scripts)| == |scripts|
  {
    if scripts != [] {
      HunksOfLength(scripts[1..]);
    }
  }

  /** The three headers differ in their fifth character. */
  lemma HeadersDiffer(path: string)
    ensures !(ADD_FILE <= DELETE_FILE + path) && !(ADD_FILE <= UPDATE_FILE + path) && !(DELETE_FILE <= UPDATE_FILE + path)
    ensures ADD_FILE + path != END_OF_FILE && DELETE_FILE + path != END_OF_FILE && UPDATE_FILE + path != END_OF_FILE
  {
    assert ADD_FILE[4] == 'A' && DELETE_FILE[4] == 'D' && UPDATE_FILE[4] == 'U' && END_OF_FILE[4] == 'E';
    assert (ADD_FILE + path)[4] == 'A' && (DELETE_FILE + path)[4] == 'D' && (UPDATE_FILE + path)[4] == 'U';
  }

  lemma MoveReads(movePath: string, scripts: seq<Script>, rest: seq<string>)
    requires movePath == "" || PrintablePath(movePath)
    requires scripts != [] && forall s :: s in scripts ==> WellFormed(s)
    ensures MoveAt(MoveLine(movePath) + (PrintScripts(scripts) + rest)) == Parsed(movePath, |MoveLine(movePath)|)
  {
    var lines := MoveLine(movePath) + (PrintScripts(scripts) + rest);
    if movePath == "" {
      var s := scripts[0];
      assert s in scripts;
      assert lines[0] == ContextLine(s.context) && ContextLine(s.context)[0] == '@' && MOVE_TO[0] == '*';
      ContextReads(s.context, true);
    } else {
      assert lines[0] == MOVE_TO + movePath;
      Header(MOVE_TO, movePath);
      TrimmedFixed(movePath);
    }
  }

  lemma UpdateReads(c: Change, rest: seq<string>)
    requires c.Update? && Printable(c) && HeaderNext(rest)
    ensures UpdateAt(c.path, (PrintChange(c) + rest)[1..]) == Parsed(OperationOf(c), |PrintChange(c)|)
  {
    hide MoveAt, HunksAt, PrintScripts, HunksOf, MoveLine, WellFormed, NoMarkers, PrintablePath, HeaderNext;
    var body := PrintScripts(c.scripts) + rest;
    var lines := MoveLine(c.movePath) + body;
    assert (PrintChange(c) + rest)[1..] == lines;
    MoveReads(c.movePath, c.scripts, rest);
    assert lines[|MoveLine(c.movePath)|..] == body;
    ScriptsRead(c.scripts, rest, true);
    HunksOfLength(c.scripts);
  }

  lemma CreateReads(c: Change, rest: seq<string>)
    requires c.Create? && Printable(c) && HeaderNext(rest)
    ensures AddAt(c.path, (PrintChange(c) + rest)[1..]) == Parsed(OperationOf(c), |PrintChange(c)|)
  {
    assert (PrintChange(c) + rest)[1..] == PlusAll(c.lines) + rest;
    PlusReads(c.lines, rest);
    PlusAllLength(c.lines);
  }

  lemma AddHeader(path: string, lines: seq<string>)
    requires PrintablePath(path) && lines != [] && lines[0] == ADD_FILE + path
    ensures OperationAt(lines) == AddAt(path, lines[1..])
  {
    hide AddAt, UpdateAt, TrimSpace;
    Header(ADD_FILE, path);
    TrimmedFixed(path);
  }

  lemma DeleteHeader(path: string, lines: seq<string>)
    requires PrintablePath(path) && lines != [] && lines[0] == DELETE_FILE + path
    ensures OperationAt(lines) == Parsed(DeleteFile(path), 1)
  {
    hide AddAt, UpdateAt, TrimSpace;
    Header(DELETE_FILE, path);
    HeadersDiffer(path);
    TrimmedFixed(path);
  }

  lemma UpdateHeader(path: string, lines: seq<string>)
    requires PrintablePath(path) && lines != [] && lines[0] == UPDATE_FILE + path
    ensures OperationAt(lines) == UpdateAt(path, lines[1..])
  {
    hide AddAt, UpdateAt, TrimSpace;
    Header(UPDATE_FILE, path);
    HeadersDiffer(path);
    TrimmedFixed(path);
  }

  lemma ChangeReads(c: Change, rest: seq<string>)
    requires Printable(c) && HeaderNext(rest)
    ensures OperationAt(PrintChange(c) + rest) == Parsed(OperationOf(c), |PrintChange(c)|)
  {
    hide OperationAt, AddAt, UpdateAt, HeaderNext, PrintScripts, PlusAll, MoveLine, WellFormed, NoMarkers, PrintablePath;
    match c
    case Create(path, _) =>
      AddHeader(path, PrintChange(c) + rest);
      CreateReads(c, rest);
    case Delete(path) =>
      DeleteHeader(path, PrintChange(c) + rest);
    case Update(path, _, _) =>
      UpdateHeader(path, PrintChange(c) + rest);
      UpdateReads(c, rest);
  }

  lemma ChangeHeader(c: Change)
    requires Printable(c)
    ensures PrintChange(c) != [] && HeaderNext(PrintChange(c))
  {
    HeadersDiffer(c.path);
    match c
    case Create(path, _) => Header(ADD_FILE, path);
    case Delete(path) => Header(DELETE_FILE, path);
    case Update(path, _, _) => Header(UPDATE_FILE, path);
  }

  lemma {:induction false} ChangesRead(cs: seq<Change>)
    requires forall c :: c in cs ==> Printable(c)
    ensures OperationsIn(PrintChanges(cs)) == Parsed(OperationsFor(cs), |PrintChanges(cs)|)
  {
    hide OperationAt, PrintChange, Printable;
    if cs != [] {
      var c, others := cs[0], cs[1..];
      assert c in cs && forall o :: o in others ==> o in cs;
      ChangeHeader(c);
      if others != [] {
        assert others[0] in others;
        ChangeHeader(others[0]);
        assert PrintChanges(others)[0] == PrintChange(others[0])[0];
      }
      ChangeReads(c, PrintChanges(others));
      assert PrintChanges(cs)[0] == PrintChange(c)[0] != "";
      assert PrintChanges(cs)[|PrintChange(c)|..] == PrintChanges(others);
      ChangesRead(others);
    }
  }

  // ----- Texts

  predicate LinesOnly(lines: seq<string>) {
    forall i :: 0 <= i < |lines| ==> OneLine(lines[i])
  }

  lemma LinesOnlyConcat(a: seq<string>, b: seq<string>)
    requires LinesOnly(a) && LinesOnly(b)
    ensures LinesOnly(a + b)
  {
  }

  lemma {:induction false} EditLinesOnly(edits: seq<Edit>)
    requires forall e :: e in edits ==> OneLine(e.text)
    ensures LinesOnly(EditLines(edits))
  {
    if edits != [] {
      assert edits[0] in edits && forall e :: e in edits[1..] ==> e in edits;
      EditLinesOnly(edits[1..]);
    }
  }

  lemma {:induction false} ScriptsOnly(scripts: seq<Script>)
    requires forall s :: s in scripts ==> WellFormed(s)
    ensures LinesOnly(PrintScripts(scripts))
  {
    if scripts != [] {
      var s := scripts[0];
      assert s in scripts && forall o :: o in scripts[1..] ==> o in scripts;
      EditLinesOnly(s.edits);
      assert LinesOnly(EndLine(s.atEnd)) && LinesOnly([ContextLine(s.context)]);
      LinesOnlyConcat(EditLines(s.edits), EndLine(s.atEnd));
      LinesOnlyConcat([ContextLine(s.context)], EditLines(s.edits) + EndLine(s.atEnd));
      ScriptsOnly(scripts[1..]);
      LinesOnlyConcat(PrintScript(s), PrintScripts(scripts[1..]));
    }
  }

  lemma {:induction false} PlusOnly(lines: seq<string>)
    requires forall l :: l in lines ==> OneLine(l)
    ensures LinesOnly(PlusAll(lines))
  {
    if lines != [] {
      assert lines[0] in lines && forall l :: l in lines[1..] ==> l in lines;
      PlusOnly(lines[1..]);
    }
  }

  lemma ChangeOnly(c: Change)
    requires Printable(c)
    ensures LinesOnly(PrintChange(c))
  {
    match c
    case Create(path, lines) =>
      PlusOnly(lines);
      LinesOnlyConcat([ADD_FILE + path], PlusAll(lines));
    case Delete(path) =>
    case Update(path, movePath, scripts) =>
      ScriptsOnly(scripts);
      LinesOnlyConcat(MoveLine(movePath), PrintScripts(scripts));
      LinesOnlyConcat([UPDATE_FILE + path], MoveLine(movePath) + PrintScripts(scripts));
  }

  lemma {:induction false} ChangesOnly(cs: seq<Change>)
    requires forall c :: c in cs ==> Printable(c)
    ensures LinesOnly(PrintChanges(cs))
  {
    hide Printable, PrintChange, LinesOnly;
    if cs != [] {
      assert cs[0] in cs && forall o :: o in cs[1..] ==> o in cs;
      ChangeOnly(cs[0]);
      ChangesOnly(cs[1..]);
      LinesOnlyConcat(PrintChange(cs[0]), PrintChanges(cs[1..]));
    } else {
      NoLines();
    }
  }

  lemma NoLines()
    ensures LinesOnly([])
  {
  }

  lemma {:induction false} JoinedEnds(lines: seq<string>)
    requires |lines| > 1 && lines[0] != "" && lines[|lines| - 1] != "" && LinesOnly(lines)
    ensures var text := JoinLines(lines); text != "" && text[0] == lines[0][0]
    ensures var text := JoinLines(lines); text[|text| - 1] == lines[|lines| - 1][|lines[|lines| - 1]| - 1]
    ensures '\r' !in JoinLines(lines)
    decreases |lines|
  {
    if |lines| > 2 {
      JoinedLast(lines[1..]);
    }
    JoinedHasNoReturn(lines);
  }

  lemma {:induction false} JoinedLast(lines: seq<string>)
    requires lines != [] && lines[|lines| - 1] != ""
    ensures var text := JoinLines(lines);
      text != "" && text[|text| - 1] == lines[|lines| - 1][|lines[|lines| - 1]| - 1]
  {
    if |lines| > 1 {
      JoinedLast(lines[1..]);
    }
  }

  lemma {:induction false} JoinedHasNoReturn(lines: seq<string>)
    requires LinesOnly(lines)
    ensures '\r' !in JoinLines(lines)
  {
    if |lines| > 1 {
      JoinedHasNoReturn(lines[1..]);
    }
  }

  /** The lines of a printed patch are the lines that were printed. */
  lemma PrintedLines(body: seq<string>)
    requires LinesOnly(body)
    ensures var lines := [BEGIN_PATCH] + body + [END_PATCH]; LinesOf(JoinLines(lines)) == Some(lines)
  {
    var lines := [BEGIN_PATCH] + body + [END_PATCH];
    LinesOnlyConcat([BEGIN_PATCH], body);
    LinesOnlyConcat([BEGIN_PATCH] + body, [END_PATCH]);
    JoinedEnds(lines);
    var text := JoinLines(lines);
    NormalizedFixed(text);
    TrimmedFixed(text);
    SplitJoin(lines);
    TrimmedFixed(BEGIN_PATCH);
    TrimmedFixed(END_PATCH);
  }

  /** Round trip: parsing the printed text of any printable patch gives the
      operations it means. */
  lemma PrintedPatchReads(cs: seq<Change>)
    requires forall c :: c in cs ==> Printable(c)
    ensures OperationsOf(PrintPatch(cs)) == Parsed(OperationsFor(cs), |PrintChanges(cs)|)
  {
    hide LinesOf, Printable, PrintChange, LinesOnly;
    var lines := [BEGIN_PATCH] + PrintChanges(cs) + [END_PATCH];
    ChangesOnly(cs);
    PrintedLines(PrintChanges(cs));
    assert lines[1..|lines| - 1] == PrintChanges(cs);
    ChangesRead(cs);
  }
}
