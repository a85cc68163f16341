/** Everything a thread goes through, one event per write or oracle call, and
    what holds of every run whose events are all legal. */
module RunLog {
  import opened Messages
  import opened Text
  import opened ToolClosure
  import opened ThreadStore

  /** One event; its disk is the disk after it. `Interrupted` is a write that
      did not take place or a process that died; `Errored` is an error that
      stopped the turn with every write done. `Rebuilt` is the write of a step
      result that was read back from a step file, `Wrote` any other write. The last
      four are what the executor answers about a call: a result, an error, a question
      with what to continue it with, or that the call goes on by itself. */
  datatype Action =
    | Begin
    | Wrote
    | Rebuilt(key: Key)
    | Interrupted
    | Errored
    | CancelledWaiting
    | Started(leaf: string)
    | CalledProvider(key: Key, leaf: string)
    | Executed(key: Key, call: Part)
    | Continued(key: Key, callId: string, continuation: string, answer: string)
    | Resumed(key: Key, callId: string, payload: string, input: string)
    | Returned(key: Key, result: Part)
    | Raised(key: Key, callId: string, error: string)
    | Asks(key: Key, callId: string, continuation: string)
    | GoesOn(key: Key, callId: string, payload: string)

  datatype Event = Event(action: Action, disk: Disk)

  // ----- Reading a disk

  /** The assistant message of step `k`: the saved one when there is one. */
  function StepMessage(d: Disk, k: Key): Message
    requires k in d.results
  {
    var r := d.results[k];
    if r.assistantId in d.messages then d.messages[r.assistantId].msg else r.assistant
  }

  /** The calls answered by the tool messages that `ids` lists. */
  function AnsweredBy(m: map<string, Stored>, ids: seq<string>): set<string> {
    if ids == [] then {}
    else
      var last := ids[|ids| - 1];
      AnsweredBy(m, ids[..|ids| - 1]) + if last in m then ResultIds(m[last].msg) else {}
  }

  /** The calls answered by the event index of step `k`. */
  function Answered(d: Disk, k: Key): set<string> {
    AnsweredBy(d.messages, EventsOf(d, k))
  }

  /** Every executor call of step `k` has a result in its event index. */
  ghost predicate AllAnswered(d: Disk, k: Key) {
    && k in d.results && d.results[k].assistantId in d.messages
    && CallIds(StepMessage(d, k)) <= Answered(d, k)
  }

  ghost predicate ClosedAt(d: Disk, leaf: string) {
    exists ids :: IsChain(d.messages, leaf, ids) && ToolClosed(MessagesOf(d.messages, ids))
  }

  ghost predicate ChildFree(m: map<string, Stored>, leaf: string) {
    forall id :: id in m ==> m[id].parent != leaf
  }

  /** The step result records the executor calls of its message, in order. */
  ghost predicate CallsMatch(r: StepResult) {
    var calls := ExecutorCalls(r.assistant.parts);
    |r.calls| == |calls| && forall i :: 0 <= i < |calls| ==> r.calls[i].callId == calls[i].callId
  }

  ghost predicate Records(r: StepResult, callId: string) {
    exists i :: 0 <= i < |r.calls| && r.calls[i].callId == callId
  }

  // ----- Every disk of a run

  ghost predicate TurnConsistent(d: Disk, t: TurnState) {
    && (t.leaf == "" || t.leaf in d.messages)
    && (!t.phase.Streaming? ==>
          var k := Key(t.id, t.step); k in d.results && d.results[k].assistantId in d.messages)
    && (t.phase.WaitingForAnswer? ==> t.pending == "" || AskKey(t.id, t.pending) in d.questions)
    && (t.pending != "" ==> t.phase.WaitingForAnswer?)
  }

  ghost predicate Consistent(d: Disk) {
    && Grounded(d.messages)
    && (forall k :: k in d.results ==>
          && (d.results[k].assistantId == "" || d.results[k].assistantId in d.messages)
          && d.results[k].assistant.role == Assistant)
    && (forall k, e :: k in d.events && e in d.events[k] ==> e in d.messages)
    && d.answers.Keys <= d.questions.Keys
    && (d.turn.Some? ==> TurnConsistent(d, d.turn.value))
  }

  /** The turn on disk waits for the answer to a question, and it was given. */
  ghost predicate Answerable(d: Disk) {
    && d.turn.Some? && d.turn.value.phase == WaitingForAnswer
    && Key(d.turn.value.id, d.turn.value.step) in d.results
    && var ask := AskKey(d.turn.value.id, d.turn.value.pending);
    ask in d.questions && ask in d.answers
  }

  function AskedBy(d: Disk): string
    requires d.turn.Some? && AskKey(d.turn.value.id, d.turn.value.pending) in d.questions
  {
    d.questions[AskKey(d.turn.value.id, d.turn.value.pending)].callId
  }

  /** The call that the tool waiting for the pending answer is continued with:
      the one that asked if the step result recorded it, an empty one if not. */
  ghost function ContinuedCall(d: Disk): string
    requires Answerable(d)
  {
    if Records(d.results[Key(d.turn.value.id, d.turn.value.step)], AskedBy(d)) then AskedBy(d) else ""
  }

  ghost predicate ContinuesAnswered(d: Disk, k: Key, callId: string) {
    Answerable(d) && k == Key(d.turn.value.id, d.turn.value.step) && callId == ContinuedCall(d)
  }

  /** A tool is continued with what its question recorded and with the answer to it. */
  ghost predicate ContinuesWith(d: Disk, continuation: string, answer: string)
    requires Answerable(d)
  {
    var ask := AskKey(d.turn.value.id, d.turn.value.pending);
    continuation == d.questions[ask].continuation && answer == d.answers[ask]
  }

  /** The step that the turn on disk is at. */
  predicate CurrentStep(d: Disk, k: Key) {
    d.turn.Some? && k == Key(d.turn.value.id, d.turn.value.step)
  }

  /** One of the calls that the message of the current step leaves to the executor. */
  ghost predicate Executable(d: Disk, k: Key, call: Part) {
    CurrentStep(d, k) && k in d.results && call in ExecutorCalls(StepMessage(d, k).parts)
  }

  /** The async index of the current step has the continuation of the call, with its
      input. */
  ghost predicate Resumable(d: Disk, k: Key, callId: string, payload: string, input: string) {
    && CurrentStep(d, k)
    && exists at :: at in AsyncOf(d, k) && at.callId == callId && at.payload == payload && at.input == input
  }

  // ----- Every write of a run

  /** A step result keeps its content; only the message ID may be filled in. */
  ghost predicate ResultKept(r: StepResult, r': StepResult) {
    && r'.assistant == r.assistant && r'.calls == r.calls && r'.replacesId == r.replacesId
    && (r.assistantId != "" ==> r'.assistantId == r.assistantId)
  }

  /** The message ID of an unnamed result may become `id`: a message with its
      content, or the one that was found under its own ID below the leaf. */
  ghost predicate MayName(d: Disk, k: Key, id: string)
    requires k in d.results
  {
    var r := d.results[k];
    && id in d.messages && d.messages[id].msg.role == Assistant && (r.assistant.id == "" || id == r.assistant.id)
    && (d.messages[id].msg.parts == r.assistant.parts || AdoptedUnder(d, k, id))
  }

  ghost predicate AdoptedUnder(d: Disk, k: Key, id: string)
    requires k in d.results
  {
    && id in d.messages && id == d.results[k].assistant.id
    && d.turn.Some? && k == Key(d.turn.value.id, d.turn.value.step) && d.messages[id].parent == d.turn.value.leaf
  }

  /** New step results name no message, and a name is filled in as it may be. */
  ghost predicate NamesOnly(d: Disk, d': Disk) {
    && (forall k :: k in d'.results && k !in d.results ==> d'.results[k].assistantId == "")
    && (forall k :: k in d.results && k in d'.results && d.results[k].assistantId == "" && d'.results[k].assistantId != "" ==>
          MayName(d, k, d'.results[k].assistantId))
  }

  /** The persisted turn stays on its step, or moves one step on once every
      call of the step it leaves is answered. A question it begins to wait for
      has no answer yet. */
  ghost predicate TurnMoves(d': Disk, t: TurnState, t': TurnState) {
    && (t'.step == t.step || (t'.step == t.step + 1 && AllAnswered(d', Key(t.id, t.step))))
    && (t'.pending == t.pending || t'.pending == "" || AskKey(t.id, t'.pending) !in d'.answers)
  }

  ghost predicate Extends(d: Disk, d': Disk) {
    && MessagesKept(d.messages, d'.messages)
    && (forall k :: k in d.results ==> k in d'.results && ResultKept(d.results[k], d'.results[k]))
    && (forall k :: k in d.events ==> k in d'.events && d.events[k] <= d'.events[k])
    && (forall q :: q in d.questions ==> q in d'.questions && d'.questions[q] == d.questions[q])
    && d.answers.Keys <= d'.answers.Keys
  }

  /** What an event index begins to list was just saved: it has no children, and
      the turn on disk does not end in it. */
  ghost predicate ListsNew(d: Disk, d': Disk) {
    forall k, i :: k in d'.events && |EventsOf(d, k)| <= i < |d'.events[k]| ==>
      && ChildFree(d.messages, d'.events[k][i])
      && (d.turn.Some? ==> d'.events[k][i] != d.turn.value.leaf)
  }

  /** A step result that is written for the first time records its calls. */
  ghost predicate RecordsNew(d: Disk, d': Disk) {
    forall k :: k in d'.results && k !in d.results ==> CallsMatch(d'.results[k])
  }

  ghost predicate LegalWrite(d: Disk, d': Disk) {
    && Extends(d, d') && ListsNew(d, d') && NamesOnly(d, d')
    && (d.turn.Some? && d'.turn.Some? && d.turn.value.id == d'.turn.value.id ==>
          TurnMoves(d', d.turn.value, d'.turn.value))
  }

  // ----- Runs

  /** A write that did not take place, the death of a process, a turn that was
      cancelled while it waited for an answer, or a model that reuses a call ID. */
  ghost predicate Faults(e: Event) {
    || e.action.Interrupted?
    || e.action.CancelledWaiting?
    || exists k :: k in e.disk.results && !DistinctCalls(e.disk.results[k].assistant)
  }

  ghost predicate Disturbs(e: Event) {
    Faults(e) || (e.action.Started? && !ClosedAt(e.disk, e.action.leaf))
  }

  /** Every write took place and no process died, no waiting turn was cancelled,
      every turn was started on a tool-closed history, and no model reply used a
      call ID twice. Errors of any kind may have stopped the loop. */
  ghost predicate Calm(log: seq<Event>) {
    forall i :: 0 <= i < |log| ==> !Disturbs(log[i])
  }

  ghost predicate SameTurn(d: Disk, d': Disk) {
    d.turn.Some? && d'.turn.Some? && d.turn.value.id == d'.turn.value.id
  }

  ghost predicate LegalEvent(before: seq<Event>, e: Event)
    requires before != []
  {
    var d := before[|before| - 1].disk;
    match e.action
    case Wrote => LegalWrite(d, e.disk) && RecordsNew(d, e.disk)
    case Rebuilt(k) =>
      && LegalWrite(d, e.disk)
      && k !in d.results && k in e.disk.results && e.disk.results[k].calls == []
      && e.disk == d.(results := d.results[k := e.disk.results[k]])
    case CalledProvider(k, leaf) =>
      && e.disk == d
      && CurrentStep(d, k) && k !in d.results && leaf == d.turn.value.leaf
      && (Calm(before) ==> ClosedAt(d, leaf))
    case Executed(k, call) => e.disk == d && Executable(d, k, call) && call.callId !in Answered(d, k)
    case Continued(k, callId, continuation, answer) =>
      && e.disk == d && ContinuesAnswered(d, k, callId) && ContinuesWith(d, continuation, answer)
      && (Calm(before) && CallsMatch(d.results[k]) ==> callId == AskedBy(d) && callId !in Answered(d, k))
    case Resumed(k, callId, payload, input) => e.disk == d && Resumable(d, k, callId, payload, input)
    case Returned(_, result) => e.disk == d && result.ToolResultPart?
    case _ => e.disk == d
  }

  // ----- What the executor hands back, and what is recorded of it

  const INTERRUPTED := "interrupted by transient system failure"
  const CANCELLED := "cancelled"

  /** toolResultOutputText; a list of content items is taken for its text. */
  function OutputText(output: Output): string {
    match output
    case NoOutput => ""
    case DeniedOutput(reason) => if reason != "" then "Execution denied: " + reason else "Execution denied"
    case _ => output.value
  }

  /** What the runtime tells the model by itself. */
  type Reminder = text: string | "<system-reminder>" <= text witness "<system-reminder>"

  /** The result with a reminder behind its text, unless that has it already. */
  function Reminded(result: Part, reminder: Reminder): Part
    requires result.ToolResultPart?
  {
    var text := OutputText(result.output);
    if Contains(text, reminder) then result
    else result.(output := TextOutput((if TrimSpace(text) == "" then "Tool completed." else text) + "\n\n" + reminder))
  }

  /** What is recorded is the result, or it with a system reminder. */
  ghost predicate Carries(p: Part, result: Part) {
    result.ToolResultPart? && (p == result || exists reminder: Reminder :: p == Reminded(result, reminder))
  }

  predicate EndsWith(s: string, t: string) {
    |t| <= |s| && s[|s| - |t|..] == t
  }

  predicate Speaks(a: Action) {
    a.Returned? || a.Raised?
  }

  /** The result that stands for what the executor handed back: its own, or an error
      text that ends in its error. */
  ghost predicate Answers(a: Action, k: Key, result: Part) {
    match a
    case Returned(key, own) => key == k && result == own
    case Raised(key, callId, error) =>
      && key == k && result.ToolResultPart? && result.callId == callId
      && result.output.ErrorTextOutput? && EndsWith(result.output.value, error)
    case _ => false
  }

  /** An error result that the loop makes itself. */
  predicate OwnError(result: Part) {
    && result.ToolResultPart?
    && (result.output == ErrorTextOutput(INTERRUPTED) || result.output == ErrorTextOutput(CANCELLED))
  }

  predicate OwnDenial(result: Part) {
    result.ToolResultPart? && result.output.DeniedOutput?
  }

  /** The message that records an answer of the executor is saved. */
  ghost predicate SavesAnswerOf(a: Action, d: Disk, d': Disk) {
    exists id, parent, p, result :: (
      && Speaks(a) && Answers(a, a.key, result) && Carries(p, result) && id !in d.messages
      && d' == d.(messages := d.messages[id := Stored(parent, "", Plain(Tool, [p]))]))
  }

  /** The message that was saved after `was` is listed. */
  ghost predicate ListsSaved(was: Disk, k: Key, d: Disk, d': Disk) {
    exists id :: id in d.messages && id !in was.messages && d' == d.(events := d.events[k := EventsOf(d, k) + [id]])
  }

  /** What the executor hands back is recorded at once, unless a write does not take
      place, or the turn stops with an error while an answered tool is continued. */
  ghost predicate RecordsAtOnce(before: seq<Event>, e: Event)
    requires before != []
  {
    var n := |before|;
    && (Speaks(before[n - 1].action) ==>
          || e.action == Interrupted
          || (e.action == Errored && n >= 2 && before[n - 2].action.Continued?)
          || (e.action == Wrote && SavesAnswerOf(before[n - 1].action, before[n - 1].disk, e.disk)))
    && (n >= 2 && Speaks(before[n - 2].action) && before[n - 1].action == Wrote ==>
          || e.action == Interrupted
          || (e.action == Wrote && ListsSaved(before[n - 2].disk, before[n - 2].action.key, before[n - 1].disk, e.disk)))
  }

  /** The part that an index begins to list is no result, or an answer of the
      executor, or the denial of a question, or an error of the loop's own for a call
      that has no result. */
  ghost predicate Warranted(before: seq<Event>, d: Disk, k: Key, p: Part) {
    p.ToolResultPart? ==>
      || (exists j, result :: 0 <= j < |before| && Answers(before[j].action, k, result) && Carries(p, result))
      || OwnDenial(p)
      || (p.callId !in Answered(d, k) && exists own :: OwnError(own) && Carries(p, own))
  }

  ghost predicate ListsWarranted(before: seq<Event>, e: Event)
    requires before != []
  {
    var d := before[|before| - 1].disk;
    e.action == Wrote ==>
      forall k, i :: k in e.disk.events && |EventsOf(d, k)| <= i < |e.disk.events[k]| && e.disk.events[k][i] in e.disk.messages ==>
        forall p :: p in e.disk.messages[e.disk.events[k][i]].msg.parts ==> Warranted(before, d, k, p)
  }

  ghost predicate Accounts(before: seq<Event>, e: Event)
    requires before != []
  {
    RecordsAtOnce(before, e) && ListsWarranted(before, e)
  }

  /** A turn that was not on disk a moment ago was never on disk before. */
  ghost predicate FreshTurn(before: seq<Event>, d: Disk)
    requires before != []
  {
    d.turn.Some? && !SameTurn(before[|before| - 1].disk, d) ==>
      forall j :: 0 <= j < |before| ==> !SameTurn(before[j].disk, d)
  }

  ghost predicate LegalRun(log: seq<Event>) {
    if |log| <= 1 then
      log == [Event(Begin, EMPTY)]
    else
      var before, e := log[..|log| - 1], log[|log| - 1];
      && LegalRun(before) && LegalEvent(before, e) && Accounts(before, e)
      && FreshTurn(before, e.disk) && Consistent(e.disk)
  }

  lemma LegalRunSnoc(log: seq<Event>, e: Event)
    requires LegalRun(log) && log != [] && LegalEvent(log, e) && Accounts(log, e)
    requires FreshTurn(log, e.disk) && Consistent(e.disk)
    ensures LegalRun(log + [e])
  {
    assert (log + [e])[..|log|] == log;
  }

  lemma {:induction false} LegalPrefix(log: seq<Event>, i: nat)
    requires LegalRun(log) && 0 < i <= |log|
    ensures LegalRun(log[..i])
    decreases |log|
  {
    if i == |log| {
      assert log[..i] == log;
    } else {
      assert log[..|log| - 1][..i] == log[..i];
      LegalPrefix(log[..|log| - 1], i);
    }
  }

  // ----- What every run keeps

  /** A call counts as answered exactly when a listed message on disk holds a
      result for it. */
  lemma {:induction false} AnsweredMeans(m: map<string, Stored>, ids: seq<string>, c: string)
    ensures c in AnsweredBy(m, ids) <==>
      exists i, p :: 0 <= i < |ids| && ids[i] in m && p in m[ids[i]].msg.parts && p.ToolResultPart? && p.callId == c
  {
    if ids != [] {
      var front, n := ids[..|ids| - 1], |ids| - 1;
      AnsweredMeans(m, front, c);
      if c in AnsweredBy(m, front) {
        var i, p :| 0 <= i < |front| && front[i] in m && p in m[front[i]].msg.parts && p.ToolResultPart? && p.callId == c;
        assert ids[i] in m && p in m[ids[i]].msg.parts;
      }
      if exists i, p :: 0 <= i < |ids| && ids[i] in m && p in m[ids[i]].msg.parts && p.ToolResultPart? && p.callId == c {
        var i, p :| 0 <= i < |ids| && ids[i] in m && p in m[ids[i]].msg.parts && p.ToolResultPart? && p.callId == c;
        if i < n {
          assert front[i] in m && p in m[front[i]].msg.parts;
        }
      }
    }
  }

  lemma {:induction false} AnsweredByGrows(m: map<string, Stored>, m': map<string, Stored>, ids: seq<string>, ids': seq<string>)
    requires MessagesKept(m, m') && ids <= ids'
    ensures AnsweredBy(m, ids) <= AnsweredBy(m', ids')
    decreases |ids'|
  {
    if ids' != [] {
      var front := ids'[..|ids'| - 1];
      if ids == ids' {
        AnsweredByGrows(m, m', front, front);
      } else {
        AnsweredByGrows(m, m', ids, front);
      }
    }
  }

  lemma {:induction false} AnsweredByKept(m: map<string, Stored>, m': map<string, Stored>, ids: seq<string>)
    requires MessagesKept(m, m') && forall e :: e in ids ==> e in m
    ensures AnsweredBy(m, ids) == AnsweredBy(m', ids)
  {
    if ids != [] {
      AnsweredByKept(m, m', ids[..|ids| - 1]);
    }
  }

  lemma AnsweredGrows(d: Disk, d': Disk, k: Key)
    requires Extends(d, d')
    ensures Answered(d, k) <= Answered(d', k)
  {
    AnsweredByGrows(d.messages, d'.messages, EventsOf(d, k), EventsOf(d', k));
  }

  lemma GroundedNames(d: Disk)
    requires Consistent(d)
    ensures "" !in d.messages
  {
  }

  lemma AllAnsweredKept(d: Disk, d': Disk, k: Key)
    requires Extends(d, d') && AllAnswered(d, k) && "" !in d.messages
    ensures AllAnswered(d', k) && StepMessage(d', k) == StepMessage(d, k)
  {
    AnsweredGrows(d, d', k);
  }

  lemma ExtendsTrans(a: Disk, b: Disk, c: Disk)
    requires Extends(a, b) && Extends(b, c)
    ensures Extends(a, c)
  {
  }

  lemma EventLegal(log: seq<Event>, i: nat)
    requires LegalRun(log) && 0 < i < |log|
    ensures log[..i] != [] && log[..i][|log[..i]| - 1] == log[i - 1]
    ensures LegalEvent(log[..i], log[i])
  {
    hide LegalEvent, Consistent, FreshTurn;
    LegalPrefix(log, i + 1);
    assert log[..i + 1][..i] == log[..i];
  }

  lemma EventAccounts(log: seq<Event>, i: nat)
    requires LegalRun(log) && 0 < i < |log|
    ensures log[..i] != [] && Accounts(log[..i], log[i])
  {
    hide LegalEvent, Consistent, FreshTurn, Accounts;
    LegalPrefix(log, i + 1);
    assert log[..i + 1][..i] == log[..i];
  }

  /** What a legal event tells about the disk just before it. */
  lemma EventFacts(before: seq<Event>, e: Event)
    requires before != [] && LegalEvent(before, e)
    ensures var d := before[|before| - 1].disk;
      && Extends(d, e.disk) && ListsNew(d, e.disk) && NamesOnly(d, e.disk)
      && (SameTurn(d, e.disk) ==> TurnMoves(e.disk, d.turn.value, e.disk.turn.value))
  {
  }

  /** Whatever happens in between, nothing that was on disk is lost: messages
      are write-once, step results keep their content, event indexes only grow. */
  lemma {:induction false} RunExtends(log: seq<Event>, i: nat, j: nat)
    requires LegalRun(log) && i <= j < |log|
    ensures Extends(log[i].disk, log[j].disk)
    decreases j
  {
    hide LegalRun, LegalEvent, Extends;
    if i == j {
      ExtendsItself(log[i].disk);
    } else {
      RunExtends(log, i, j - 1);
      EventLegal(log, j);
      EventFacts(log[..j], log[j]);
      ExtendsTrans(log[i].disk, log[j - 1].disk, log[j].disk);
    }
  }

  lemma ExtendsItself(d: Disk)
    ensures Extends(d, d)
  {
  }

  /** A turn on disk at two moments was on disk just before the second. */
  lemma TurnWasThere(log: seq<Event>, i: nat, j: nat)
    requires LegalRun(log) && i < j < |log| && SameTurn(log[i].disk, log[j].disk)
    ensures SameTurn(log[j - 1].disk, log[j].disk) && SameTurn(log[i].disk, log[j - 1].disk)
  {
    hide LegalEvent, Consistent, Accounts;
    LegalPrefix(log, j + 1);
    assert log[..j + 1][..j] == log[..j];
    assert log[..j][i] == log[i];
  }

  lemma DiskConsistent(log: seq<Event>, i: nat)
    requires LegalRun(log) && i < |log|
    ensures Consistent(log[i].disk)
  {
    hide LegalEvent, Accounts, FreshTurn;
    LegalPrefix(log, i + 1);
  }

  /** In every run, a turn that went from step `a` to step `b` left no call of
      the steps between unanswered, and never went back. */
  lemma {:induction false} StepsLeftAreAnswered(log: seq<Event>, i: nat, j: nat)
    requires LegalRun(log) && i <= j < |log| && SameTurn(log[i].disk, log[j].disk)
    ensures var a, b := log[i].disk.turn.value, log[j].disk.turn.value;
      && a.step <= b.step
      && forall s: nat :: a.step <= s < b.step ==> AllAnswered(log[j].disk, Key(a.id, s))
    decreases j
  {
    hide LegalRun, LegalEvent, Consistent, Extends, AllAnswered;
    if i < j {
      TurnWasThere(log, i, j);
      StepsLeftAreAnswered(log, i, j - 1);
      EventLegal(log, j);
      EventFacts(log[..j], log[j]);
      var a, mid, b := log[i].disk.turn.value, log[j - 1].disk.turn.value, log[j].disk.turn.value;
      forall s: nat | a.step <= s < b.step
        ensures AllAnswered(log[j].disk, Key(a.id, s))
      {
        if s < mid.step {
          DiskConsistent(log, j - 1);
          GroundedNames(log[j - 1].disk);
          AllAnsweredKept(log[j - 1].disk, log[j].disk, Key(a.id, s));
        }
      }
    }
  }

  /** Once a step has a result on disk the provider is never called for it
      again, and what the model said in it never changes. */
  lemma CompletedStepIsFinal(log: seq<Event>, i: nat, j: nat, k: Key)
    requires LegalRun(log) && i <= j < |log| && k in log[i].disk.results
    ensures k in log[j].disk.results && ResultKept(log[i].disk.results[k], log[j].disk.results[k])
    ensures i < j ==> !(log[j].action.CalledProvider? && log[j].action.key == k)
  {
    hide LegalRun, Consistent, ListsNew, MessagesKept;
    RunExtends(log, i, j);
    if i < j {
      RunExtends(log, i, j - 1);
      EventLegal(log, j);
      EventFacts(log[..j], log[j]);
    }
  }

  // ----- The calls that a step runs

  /** No message on disk has taken the ID of the reply with other content. */
  ghost predicate IdFree(d: Disk, k: Key)
    requires k in d.results
  {
    var r := d.results[k];
    r.assistant.id !in d.messages || d.messages[r.assistant.id].msg.parts == r.assistant.parts
  }

  ghost predicate Unnamed(d: Disk, k: Key)
    requires k in d.results
  {
    d.results[k].assistantId == ""
  }

  /** Filling in the message ID leaves the step what it was exactly when the ID
      of the reply was free. */
  lemma FillingExactly(d: Disk, k: Key, id: string)
    requires "" !in d.messages && k in d.results && Unnamed(d, k) && MayName(d, k, id)
    ensures var d' := d.(results := d.results[k := d.results[k].(assistantId := id)]);
      StepMessage(d', k).parts == StepMessage(d, k).parts <==> IdFree(d, k)
  {
  }

  /** Every named result is named by a message with its content, or by the one
      under its own ID. */
  ghost predicate Named(d: Disk, k: Key)
    requires k in d.results
  {
    var r := d.results[k];
    && r.assistantId in d.messages
    && (r.assistantId == r.assistant.id || d.messages[r.assistantId].msg.parts == r.assistant.parts)
    && (r.assistant.id == "" || r.assistantId == r.assistant.id)
  }

  lemma NamedStays(d: Disk, d': Disk, k: Key)
    requires Extends(d, d') && NamesOnly(d, d') && k in d'.results && !Unnamed(d', k)
    requires k in d.results && !Unnamed(d, k) ==> Named(d, k)
    ensures Named(d', k)
  {
  }

  lemma {:induction false} NamedInRun(log: seq<Event>, j: nat, k: Key)
    requires LegalRun(log) && j < |log| && k in log[j].disk.results && !Unnamed(log[j].disk, k)
    ensures Named(log[j].disk, k)
    decreases j
  {
    hide LegalRun, LegalEvent, Extends, NamesOnly, Named;
    if j == 0 {
      FirstEvent(log);
    } else {
      EventLegal(log, j);
      EventFacts(log[..j], log[j]);
      if k in log[j - 1].disk.results && !Unnamed(log[j - 1].disk, k) {
        NamedInRun(log, j - 1, k);
      }
      NamedStays(log[j - 1].disk, log[j].disk, k);
    }
  }

  /** In every run a step stands for the reply of its result if and only if its
      message is not named yet or the ID of the reply was not taken by a message
      with other content. */
  lemma StepRunsItsReply(log: seq<Event>, j: nat, k: Key)
    requires LegalRun(log) && j < |log| && k in log[j].disk.results
    ensures var d := log[j].disk;
      StepMessage(d, k).parts == d.results[k].assistant.parts <==> Unnamed(d, k) || IdFree(d, k)
  {
    hide LegalRun, Grounded;
    DiskConsistent(log, j);
    GroundedNames(log[j].disk);
    if !Unnamed(log[j].disk, k) {
      NamedInRun(log, j, k);
    }
  }

  /** The event that fills in the message ID of step `k`. */
  ghost predicate FillsIn(log: seq<Event>, n: nat, k: Key) {
    && 0 < n < |log| && k in log[n - 1].disk.results && k in log[n].disk.results
    && Unnamed(log[n - 1].disk, k) && !Unnamed(log[n].disk, k)
  }

  /** From the moment a step has a result on, what it stands for is fixed, but for
      the one event that fills in its message ID; and that changes it exactly when
      the ID of the reply is taken by a message with other content just before. */
  lemma {:induction false} StepCallsExactly(log: seq<Event>, i: nat, j: nat, k: Key)
    requires LegalRun(log) && i <= j < |log| && k in log[i].disk.results
    ensures k in log[j].disk.results
    ensures (!Unnamed(log[i].disk, k) || Unnamed(log[j].disk, k)) ==>
      StepMessage(log[j].disk, k) == StepMessage(log[i].disk, k)
    ensures Unnamed(log[i].disk, k) && !Unnamed(log[j].disk, k) ==> exists n :: (
      && i < n <= j && FillsIn(log, n, k)
      && (StepMessage(log[j].disk, k).parts == StepMessage(log[i].disk, k).parts <==> IdFree(log[n - 1].disk, k)))
    decreases j
  {
    hide LegalRun, LegalEvent, Consistent, Extends, NamesOnly, ListsNew, StepMessage, IdFree, Unnamed;
    RunExtends(log, i, j);
    DiskConsistent(log, i);
    DiskConsistent(log, j);
    StandsStill(log[i].disk, log[j].disk, k);
    if i < j && Unnamed(log[i].disk, k) && !Unnamed(log[j].disk, k) {
      StepCallsExactly(log, i, j - 1, k);
      RunExtends(log, i, j - 1);
      EventLegal(log, j);
      EventFacts(log[..j], log[j]);
      DiskConsistent(log, j - 1);
      StandsStill(log[i].disk, log[j - 1].disk, k);
      if Unnamed(log[j - 1].disk, k) {
        assert FillsIn(log, j, k);
        NameFilled(log[j - 1].disk, log[j].disk, k);
      } else {
        StandsStill(log[j - 1].disk, log[j].disk, k);
      }
    }
  }

  lemma StandsStill(d: Disk, d': Disk, k: Key)
    requires Extends(d, d') && Consistent(d) && Consistent(d') && k in d.results
    ensures k in d'.results
    ensures !Unnamed(d, k) || Unnamed(d', k) ==> StepMessage(d', k) == StepMessage(d, k)
  {
  }

  lemma NameFilled(d: Disk, d': Disk, k: Key)
    requires Extends(d, d') && NamesOnly(d, d') && Consistent(d)
    requires k in d.results && k in d'.results && Unnamed(d, k) && !Unnamed(d', k)
    ensures StepMessage(d', k).parts == StepMessage(d, k).parts <==> IdFree(d, k)
  {
  }

  predicate RunsCall(a: Action, k: Key, callId: string) {
    a.Executed? && a.key == k && a.call.ToolCallPart? && a.call.callId == callId
  }

  /** A tool call with a result in its event index is never executed afresh. */
  lemma AnsweredCallNotExecuted(log: seq<Event>, i: nat, j: nat, k: Key, callId: string)
    requires LegalRun(log) && i < j < |log| && callId in Answered(log[i].disk, k)
    ensures !RunsCall(log[j].action, k, callId)
  {
    hide LegalRun, Consistent, Extends, Answered, Calm;
    RunExtends(log, i, j - 1);
    AnsweredGrows(log[i].disk, log[j - 1].disk, k);
    EventLegal(log, j);
  }

  /** In every run the executor gets only calls of the message that stands for the
      step the turn is at, each with the tool and the input that the message has, and
      while it has no result. */
  lemma ExecutedAsAsked(log: seq<Event>, i: nat)
    requires LegalRun(log) && 0 < i < |log| && log[i].action.Executed?
    ensures var d, k, call := log[i].disk, log[i].action.key, log[i].action.call;
      && CurrentStep(d, k) && k in d.results
      && call in StepMessage(d, k).parts && IsExecutorCall(call) && call.callId !in Answered(d, k)
  {
    hide LegalRun, Consistent, Answered, StepMessage;
    EventLegal(log, i);
  }

  /** In every run the provider is called for the step that the turn on disk is at, and
      with the history that its record ends in. */
  lemma ModelSeesTheRecord(log: seq<Event>, i: nat)
    requires LegalRun(log) && 0 < i < |log| && log[i].action.CalledProvider?
    ensures var d := log[i].disk;
      CurrentStep(d, log[i].action.key) && log[i].action.leaf == d.turn.value.leaf && log[i].action.key !in d.results
  {
    hide LegalRun, Consistent, Calm;
    EventLegal(log, i);
  }

  /** In every run an async call is taken up again only with what its continuation on
      disk says. */
  lemma ResumedAsSaved(log: seq<Event>, i: nat)
    requires LegalRun(log) && 0 < i < |log| && log[i].action.Resumed?
    ensures var a, d := log[i].action, log[i].disk;
      && CurrentStep(d, a.key)
      && exists at :: at in AsyncOf(d, a.key) && at.callId == a.callId && at.payload == a.payload && at.input == a.input
  {
    hide LegalRun, Consistent;
    EventLegal(log, i);
  }

  // ----- What the tools said is what the history has

  /** In every run what the executor hands back of a call becomes the next message
      and the next thing that the event index of the step lists: a result as it is,
      an error as an error text that ends in it, each with a system reminder at most. A
      write that does not take place, a death, or an error that stops the turn while
      an answered tool is continued is all that may come in between. */
  lemma AnswersAreRecorded(log: seq<Event>, j: nat)
    requires LegalRun(log) && 0 < j && j + 2 < |log| && Speaks(log[j].action)
    requires log[j + 1].action != Interrupted && log[j + 2].action != Interrupted
    requires log[j - 1].action.Continued? ==> log[j + 1].action != Errored
    ensures var k, d, d' := log[j].action.key, log[j].disk, log[j + 2].disk; exists id, p, result :: (
      && Answers(log[j].action, k, result) && Carries(p, result)
      && id !in d.messages && id in d'.messages && d'.messages[id].msg == Plain(Tool, [p])
      && EventsOf(d', k) == EventsOf(d, k) + [id])
  {
    hide LegalRun, LegalEvent, Consistent, ListsWarranted, Carries, Answers;
    EventAccounts(log, j + 1);
    EventAccounts(log, j + 2);
    assert log[..j + 1][j] == log[j] && log[..j + 1][j - 1] == log[j - 1];
    assert log[..j + 2][j] == log[j] && log[..j + 2][j + 1] == log[j + 1];
    var d, d1, d2, k := log[j].disk, log[j + 1].disk, log[j + 2].disk, log[j].action.key;
    var id, parent, p, result :| Answers(log[j].action, k, result) && Carries(p, result) && id !in d.messages
      && d1 == d.(messages := d.messages[id := Stored(parent, "", Plain(Tool, [p]))]);
    var listed :| listed in d1.messages && listed !in d.messages
      && d2 == d1.(events := d1.events[k := EventsOf(d1, k) + [listed]]);
    assert listed == id && d2.messages[id].msg == Plain(Tool, [p]) && EventsOf(d2, k) == EventsOf(d, k) + [id];
  }

  /** In every run each result that an event index lists was handed back by the
      executor before, or denies a question, or is an error of the loop's own. */
  lemma {:induction false} ListedResultsAreWarranted(log: seq<Event>, i: nat, k: Key, n: nat, p: Part)
    requires LegalRun(log) && i < |log| && n < |EventsOf(log[i].disk, k)|
    requires EventsOf(log[i].disk, k)[n] in log[i].disk.messages
    requires p in log[i].disk.messages[EventsOf(log[i].disk, k)[n]].msg.parts && p.ToolResultPart?
    ensures
      || (exists j, result :: 0 <= j < i && Answers(log[j].action, k, result) && Carries(p, result))
      || OwnDenial(p)
      || exists own :: OwnError(own) && Carries(p, own)
    decreases i
  {
    hide LegalRun, LegalEvent, Grounded, RecordsAtOnce, Answers, Carries, NamesOnly, Answered;
    if i == 0 {
      FirstEvent(log);
    } else {
      EventLegal(log, i);
      EventFacts(log[..i], log[i]);
      EventAccounts(log, i);
      DiskConsistent(log, i - 1);
      var d, d', before := log[i - 1].disk, log[i].disk, log[..i];
      assert before[|before| - 1] == log[i - 1];
      if n < |EventsOf(d, k)| {
        assert EventsOf(d, k)[n] == EventsOf(d', k)[n] && EventsOf(d, k)[n] in d.messages;
        ListedResultsAreWarranted(log, i - 1, k, n, p);
      } else {
        OnlyWritesList(before, log[i], k);
        assert k in d'.events && Warranted(before, d, k, p);
        if j, result :| 0 <= j < |before| && Answers(before[j].action, k, result) && Carries(p, result) {
          assert before[j] == log[j];
        }
      }
    }
  }

  lemma OnlyWritesList(before: seq<Event>, e: Event, k: Key)
    requires before != [] && LegalEvent(before, e)
    requires |EventsOf(before[|before| - 1].disk, k)| < |EventsOf(e.disk, k)|
    ensures e.action == Wrote
  {
  }

  /** As long as nothing went wrong, turns are started on tool-closed histories. */
  ghost predicate StartsClosed(log: seq<Event>) {
    forall j :: 0 <= j < |log| && log[j].action.Started? && Calm(log[..j]) ==> ClosedAt(log[j].disk, log[j].action.leaf)
  }

  lemma StartsClosedSnoc(log: seq<Event>, e: Event)
    requires StartsClosed(log) && (e.action.Started? && Calm(log) ==> ClosedAt(e.disk, e.action.leaf))
    ensures StartsClosed(log + [e])
  {
    hide Calm, ClosedAt;
    assert forall j :: 0 <= j <= |log| ==> (log + [e])[..j] == log[..j];
    assert log[..|log|] == log;
  }

  lemma {:induction false} FaultlessIsCalm(log: seq<Event>, i: nat)
    requires StartsClosed(log) && i <= |log| && forall j :: 0 <= j < i ==> !Faults(log[j])
    ensures Calm(log[..i])
  {
    if i > 0 {
      FaultlessIsCalm(log, i - 1);
      assert forall j :: 0 <= j < i - 1 ==> log[..i - 1][j] == log[j];
    }
  }

  // ----- Answers and the calls that asked

  ghost predicate WasRebuilt(log: seq<Event>, i: nat, k: Key) {
    exists j :: 0 <= j < |log| && j <= i && log[j].action == Rebuilt(k)
  }

  /** In every run a step result records its executor calls exactly when it has
      none or was not read back from a step file. */
  lemma ResultsRecordTheirCalls(log: seq<Event>, i: nat, k: Key)
    requires LegalRun(log) && i < |log| && k in log[i].disk.results
    ensures var r := log[i].disk.results[k];
      CallsMatch(r) <==> !WasRebuilt(log, i, k) || ExecutorCalls(r.assistant.parts) == []
  {
    hide LegalRun, Consistent, CallsMatch;
    RecordedOrRebuilt(log, i, k);
    EmptyRecord(log[i].disk.results[k]);
  }

  lemma EmptyRecord(r: StepResult)
    ensures r.calls == [] ==> (CallsMatch(r) <==> ExecutorCalls(r.assistant.parts) == [])
  {
  }

  lemma {:induction false} RecordedOrRebuilt(log: seq<Event>, i: nat, k: Key)
    requires LegalRun(log) && i < |log| && k in log[i].disk.results
    ensures if WasRebuilt(log, i, k) then log[i].disk.results[k].calls == [] else CallsMatch(log[i].disk.results[k])
    decreases i
  {
    hide LegalRun, Consistent, CallsMatch, ListsNew, TurnMoves, MessagesKept;
    if i == 0 {
      FirstEvent(log);
    } else {
      EventLegal(log, i);
      if k in log[i - 1].disk.results {
        RecordedOrRebuilt(log, i - 1, k);
        EventFacts(log[..i], log[i]);
        assert WasRebuilt(log, i, k) <==> WasRebuilt(log, i - 1, k);
        SameRecord(log[i - 1].disk.results[k], log[i].disk.results[k]);
      } else {
        forall j | 0 <= j < i
          ensures log[j].action != Rebuilt(k)
        {
          NotRebuiltYet(log, j, i - 1, k);
        }
      }
    }
  }

  lemma SameRecord(r: StepResult, r': StepResult)
    requires ResultKept(r, r')
    ensures r'.calls == r.calls && (CallsMatch(r) ==> CallsMatch(r'))
  {
  }

  lemma FirstEvent(log: seq<Event>)
    requires LegalRun(log) && log != []
    ensures log[0] == Event(Begin, EMPTY)
  {
    LegalPrefix(log, 1);
  }

  lemma NotRebuiltYet(log: seq<Event>, j: nat, i: nat, k: Key)
    requires LegalRun(log) && j <= i < |log| && k !in log[i].disk.results
    ensures log[j].action != Rebuilt(k)
  {
    hide LegalRun, Consistent, LegalWrite;
    RunExtends(log, j, i);
    if j == 0 {
      FirstEvent(log);
    } else {
      EventLegal(log, j);
    }
  }

  /** In every run an answer goes to the call that asked if and only if the step
      result recorded that call. */
  lemma AnswerReachesItsTool(log: seq<Event>, i: nat)
    requires LegalRun(log) && 0 < i < |log| && log[i].action.Continued?
    ensures var d := log[i].disk;
      && Answerable(d) && log[i].action.key == Key(d.turn.value.id, d.turn.value.step)
      && ContinuesWith(d, log[i].action.continuation, log[i].action.answer)
      && (log[i].action.callId == AskedBy(d) <==> Records(d.results[log[i].action.key], AskedBy(d)) || AskedBy(d) == "")
  {
    hide LegalRun, Consistent, Calm;
    EventLegal(log, i);
  }

  /** As long as a run is undisturbed and the step result was not read back from
      a step file, an answer goes to the very call that asked, and that call has
      no result yet. */
  lemma CalmAnswersReachTheirTool(log: seq<Event>, i: nat)
    requires LegalRun(log) && 0 < i < |log| && log[i].action.Continued?
    requires (forall j :: 0 <= j < i ==> !Disturbs(log[j])) && !WasRebuilt(log, i, log[i].action.key)
    ensures Answerable(log[i].disk) && log[i].action.callId == AskedBy(log[i].disk)
    ensures log[i].action.callId !in Answered(log[i].disk, log[i].action.key)
  {
    hide LegalRun, Consistent, Disturbs, CallsMatch, Answered;
    assert Calm(log[..i]);
    EventLegal(log, i);
    ResultsRecordTheirCalls(log, i, log[i].action.key);
  }

  ghost predicate WaitsFor(d: Disk, q: AskKey) {
    d.turn.Some? && d.turn.value.id == q.turn && d.turn.value.pending == q.approvalId
  }

  /** A turn that stopped waiting for an answered question never waits for it
      again. */
  lemma {:induction false} QuestionLeft(log: seq<Event>, m: nat, n: nat, q: AskKey)
    requires LegalRun(log) && m <= n < |log| && q in log[m].disk.answers && q.approvalId != ""
    requires SameTurn(log[m].disk, log[n].disk) && log[m].disk.turn.value.id == q.turn && !WaitsFor(log[m].disk, q)
    ensures !WaitsFor(log[n].disk, q)
    decreases n
  {
    hide LegalRun, Consistent, LegalEvent, AllAnswered, ListsNew;
    if m < n {
      TurnWasThere(log, m, n);
      QuestionLeft(log, m, n - 1, q);
      RunExtends(log, m, n);
      EventLegal(log, n);
      EventFacts(log[..n], log[n]);
    }
  }

  /** A question is continued twice only while the turn on disk never stopped
      waiting for it. */
  lemma SecondContinuation(log: seq<Event>, i: nat, j: nat, q: AskKey)
    requires LegalRun(log) && 0 < i < j < |log| && log[i].action.Continued? && log[j].action.Continued?
    requires WaitsFor(log[i].disk, q) && WaitsFor(log[j].disk, q) && q.approvalId != ""
    ensures forall m :: i <= m <= j ==> WaitsFor(log[m].disk, q)
  {
    hide LegalRun, Consistent, LegalEvent;
    AnswerReachesItsTool(log, i);
    forall m: nat | i <= m <= j
      ensures WaitsFor(log[m].disk, q)
    {
      TurnStays(log, i, m, j);
      RunExtends(log, i, m);
      if !WaitsFor(log[m].disk, q) {
        QuestionLeft(log, m, j, q);
      }
    }
  }

  /** A turn that is on disk at two moments is there all the time between. */
  lemma {:induction false} TurnStays(log: seq<Event>, i: nat, m: nat, j: nat)
    requires LegalRun(log) && i <= m <= j < |log| && SameTurn(log[i].disk, log[j].disk)
    ensures SameTurn(log[i].disk, log[m].disk) && SameTurn(log[m].disk, log[j].disk)
    decreases j
  {
    hide LegalRun;
    if m < j {
      TurnWasThere(log, i, j);
      TurnStays(log, i, m, j - 1);
    }
  }

  // ----- The event index and the history

  ghost predicate OnRecordChain(d: Disk, e: string) {
    d.turn.Some? && exists ids :: IsChain(d.messages, d.turn.value.leaf, ids) && e in ids
  }

  ghost predicate RecordUntouched(log: seq<Event>, m: nat, i: nat) {
    m <= i < |log| && log[m].disk.turn.Some? && forall n :: m <= n <= i ==> log[n].disk.turn == log[m].disk.turn
  }

  lemma ChildFreeIsOff(d: Disk, e: string)
    requires d.turn.Some? && ChildFree(d.messages, e) && e != d.turn.value.leaf
    ensures !OnRecordChain(d, e)
  {
    forall ids | IsChain(d.messages, d.turn.value.leaf, ids)
      ensures e !in ids
    {
      forall p | 0 <= p < |ids|
        ensures ids[p] != e
      {
        if p < |ids| - 1 {
          var q := p + 1;
          assert d.messages[ids[q]].parent == ids[q - 1];
        }
      }
    }
  }

  /** As long as the turn record is not written, its history stays as it was. */
  lemma SameRecordChain(log: seq<Event>, m: nat, i: nat, e: string)
    requires LegalRun(log) && RecordUntouched(log, m, i)
    ensures OnRecordChain(log[i].disk, e) <==> OnRecordChain(log[m].disk, e)
  {
    hide LegalRun, Grounded;
    RunExtends(log, m, i);
    DiskConsistent(log, m);
    var leaf := log[m].disk.turn.value.leaf;
    var ids := LeafChain(log[m].disk.messages, leaf);
    ChainKept(log[m].disk.messages, log[i].disk.messages, leaf, ids);
    forall other | IsChain(log[i].disk.messages, leaf, other)
      ensures other == ids
    {
      ChainUnique(log[i].disk.messages, leaf, other, ids);
    }
    forall other | IsChain(log[m].disk.messages, leaf, other)
      ensures other == ids
    {
      ChainUnique(log[m].disk.messages, leaf, other, ids);
    }
  }

  /** What an event index began to list since the turn record was written is not
      on the record's history. */
  lemma {:induction false} ListedSinceIsOff(log: seq<Event>, m: nat, i: nat, k: Key, p: nat)
    requires LegalRun(log) && RecordUntouched(log, m, i)
    requires |EventsOf(log[m].disk, k)| <= p < |EventsOf(log[i].disk, k)|
    ensures !OnRecordChain(log[i].disk, EventsOf(log[i].disk, k)[p])
    decreases i
  {
    hide LegalRun, LegalEvent, Consistent, OnRecordChain, ChildFree, MessagesKept, TurnMoves;
    EventLegal(log, i);
    EventFacts(log[..i], log[i]);
    var d, d' := log[i - 1].disk, log[i].disk;
    var e := EventsOf(d', k)[p];
    if p < |EventsOf(d, k)| {
      ListedSinceIsOff(log, m, i - 1, k, p);
    } else {
      ChildFreeIsOff(d, e);
    }
    SameRecordChain(log, i - 1, i, e);
  }

  /** In every run, the event index lists something that the history of the turn
      record skips exactly when it did so when the record was written, or has
      grown since. */
  lemma IndexAheadOfChain(log: seq<Event>, m: nat, i: nat, k: Key)
    requires LegalRun(log) && RecordUntouched(log, m, i)
    ensures (forall e :: e in EventsOf(log[i].disk, k) ==> OnRecordChain(log[i].disk, e)) <==>
      && EventsOf(log[i].disk, k) == EventsOf(log[m].disk, k)
      && (forall e :: e in EventsOf(log[m].disk, k) ==> OnRecordChain(log[m].disk, e))
  {
    hide LegalRun, LegalEvent, Consistent, OnRecordChain;
    RunExtends(log, m, i);
    var was, now := EventsOf(log[m].disk, k), EventsOf(log[i].disk, k);
    assert was <= now;
    forall e
      ensures OnRecordChain(log[i].disk, e) <==> OnRecordChain(log[m].disk, e)
    {
      SameRecordChain(log, m, i, e);
    }
    if now != was {
      var p := |was|;
      ListedSinceIsOff(log, m, i, k, p);
      assert now[p] in now;
    }
    assert forall e :: e in was ==> e in now;
  }

  // ----- Histories

  /** As long as a run is undisturbed, the model only ever sees tool-closed
      histories. */
  lemma {:induction false} CalmHistoriesAreClosed(log: seq<Event>, i: nat)
    requires LegalRun(log) && 0 < i < |log| && log[i].action.CalledProvider?
    requires forall j :: 0 <= j < i ==> !Disturbs(log[j])
    ensures ClosedAt(log[i].disk, log[i].action.leaf)
  {
    hide LegalRun, Consistent, Disturbs, LegalWrite, ClosedAt, ContinuesAnswered, Answered;
    assert Calm(log[..i]);
    EventLegal(log, i);
  }

  /** When every turn is started where an undisturbed one may be, the same
      holds of every run without crashes, write errors, cancelled waits and
      reused call IDs, however often it pauses for answers. */
  lemma FaultlessHistoriesAreClosed(log: seq<Event>, i: nat)
    requires LegalRun(log) && StartsClosed(log) && 0 < i < |log| && log[i].action.CalledProvider?
    requires forall j :: 0 <= j < i ==> !Faults(log[j])
    ensures ClosedAt(log[i].disk, log[i].action.leaf)
  {
    hide LegalRun, StartsClosed, Faults, Disturbs, ClosedAt;
    FaultlessIsCalm(log, i);
    assert forall j :: 0 <= j < i ==> log[..i][j] == log[j];
    CalmHistoriesAreClosed(log, i);
  }

  /** Every message of every reachable disk has one parent chain, and the turn
      on disk points into it. */
  lemma LeavesAreReachable(log: seq<Event>, i: nat)
    requires LegalRun(log) && i < |log|
    ensures forall id :: id in log[i].disk.messages ==> exists ids :: IsChain(log[i].disk.messages, id, ids)
    ensures log[i].disk.turn.Some? ==>
      exists ids :: IsChain(log[i].disk.messages, log[i].disk.turn.value.leaf, ids)
  {
    var d := log[i].disk;
    DiskConsistent(log, i);
    if d.turn.Some? {
      var ids := LeafChain(d.messages, d.turn.value.leaf);
    }
  }
}
