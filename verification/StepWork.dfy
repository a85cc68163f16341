/** What the writes of one step do to the disk and to the turn's history. */
module StepWork {
  import opened Messages
  import opened ToolClosure
  import opened Accumulator
  import opened ThreadStore
  import opened RunLog

  /** The executor calls of step `k` that have no result in its event index. */
  function Unresolved(d: Disk, k: Key): set<string>
    requires k in d.results
  {
    CallIds(StepMessage(d, k)) - Answered(d, k)
  }

  /** Only messages were added and the event index of `k` was extended. */
  ghost predicate OnlyToolWork(d: Disk, d': Disk, k: Key) {
    && d' == d.(messages := d'.messages, events := d'.events)
    && Extends(d, d')
    && d'.events.Keys <= d.events.Keys + {k}
    && (forall j :: j != k ==> EventsOf(d', j) == EventsOf(d, j))
  }

  lemma OnlyToolWorkTrans(a: Disk, b: Disk, c: Disk, k: Key)
    requires OnlyToolWork(a, b, k) && OnlyToolWork(b, c, k)
    ensures OnlyToolWork(a, c, k)
  {
    ExtendsTrans(a, b, c);
  }

  /** Assistant messages saved under `leaf` open no executor calls: at most
      they are the remains of a broken stream. */
  ghost predicate ChildrenQuiet(m: map<string, Stored>, leaf: string) {
    forall id :: id in m && m[id].parent == leaf && m[id].msg.role == Assistant ==> CallIds(m[id].msg) == {}
  }

  ghost predicate FutureClean(d: Disk, turn: string, step: nat) {
    forall k :: k in d.results || k in d.events || k in d.async ==> k.turn != turn || k.step < step
  }

  /** A step result records all its calls or, read back from a step file, none. */
  ghost predicate CallsRecorded(r: StepResult) {
    CallsMatch(r) || r.calls == []
  }

  /** The IDs under which async work of the step may be known: its calls, and
      the empty one where the result records no calls. */
  function KnownIds(d: Disk, k: Key): set<string>
    requires k in d.results
  {
    var unrecorded: set<string> := if d.results[k].calls == [] then {""} else {};
    CallIds(StepMessage(d, k)) + unrecorded
  }

  /** A call that the step still waits for. A call without an ID stands for one
      that the step result did not record. */
  ghost predicate OpenCall(d: Disk, k: Key, callId: string)
    requires k in d.results
  {
    callId in Unresolved(d, k) || (callId == "" && d.results[k].calls == [] && Unresolved(d, k) != {})
  }

  ghost predicate AsyncKnown(d: Disk, k: Key)
    requires k in d.results
  {
    KnownContinuations(AsyncOf(d, k), KnownIds(d, k))
  }

  ghost predicate KnownContinuations(cs: seq<Continuation>, calls: set<string>) {
    && (forall i :: 0 <= i < |cs| ==> cs[i].callId in calls)
    && (forall i, j :: 0 <= i < j < |cs| ==> cs[i].callId != cs[j].callId)
  }

  ghost predicate ChainPending(m: map<string, Stored>, ids: seq<string>, pending: set<string>) {
    (forall i :: 0 <= i < |ids| ==> ids[i] in m) && Scan({}, MessagesOf(m, ids)) == Some(pending)
  }

  /** An undisturbed turn about to call the model for `step`: its history is
      tool-closed and nothing of the step exists yet. */
  ghost predicate CalmStart(d: Disk, ids: seq<string>, leaf: string, turn: string, step: nat) {
    && leaf != "" && ChainPending(d.messages, ids, {})
    && ChildrenQuiet(d.messages, leaf)
    && FutureClean(d, turn, step)
  }

  /** An undisturbed turn at work on the calls of step `k`: the calls open on
      its history are exactly those the event index leaves unanswered. */
  ghost predicate CalmStep(d: Disk, ids: seq<string>, leaf: string, k: Key) {
    && k in d.results && leaf != ""
    && ChainPending(d.messages, ids, Unresolved(d, k))
    && ChildrenQuiet(d.messages, leaf)
    && FutureClean(d, k.turn, k.step + 1)
    && CallsRecorded(d.results[k]) && StepMessage(d, k).parts == d.results[k].assistant.parts
    && AsyncKnown(d, k)
  }

  /** The turn state `ts`, whose leaf ends the chain `ids`, may be written. */
  ghost predicate Savable(d: Disk, ts: TurnState, ids: seq<string>) {
    && IsChain(d.messages, ts.leaf, ids) && TurnConsistent(d, ts)
    && d.turn.Some? && d.turn.value.id == ts.id
    && TurnMoves(d, d.turn.value, ts)
  }

  function StepKey(ts: TurnState): Key {
    Key(ts.id, ts.step)
  }

  /** The turn is at work on the calls of its current step. */
  ghost predicate AtStep(d: Disk, ts: TurnState, ids: seq<string>, calm: bool) {
    && Savable(d, ts, ids) && d.turn.value.step == ts.step
    && StepKey(ts) in d.results && d.results[StepKey(ts)].assistantId in d.messages
    && (calm ==> CalmStep(d, ids, ts.leaf, StepKey(ts)))
  }

  /** The step's messages and event index grew, the leaf moved on, and nothing
      else changed. */
  ghost predicate Worked(d: Disk, ts: TurnState, d': Disk, ts': TurnState) {
    ts' == ts.(leaf := ts'.leaf) && OnlyToolWork(d, d', StepKey(ts))
  }

  lemma Named(m: map<string, Stored>, id: string)
    requires Grounded(m) && id in m
    ensures id != ""
  {
  }

  lemma ChainParent(m: map<string, Stored>, id: string, ids: seq<string>)
    requires IsChain(m, id, ids) && id != ""
    ensures id in m && (m[id].parent == "" || m[id].parent in m)
  {
    var last := |ids| - 1;
    assert ids[last] == id;
    if last > 0 {
      assert m[ids[last]].parent == ids[last - 1];
    }
  }

  lemma ParentExists(m: map<string, Stored>, id: string)
    requires Grounded(m) && id in m
    ensures m[id].parent == "" || m[id].parent in m
  {
    hide Grounded, IsChain;
    Named(m, id);
    var ids := LeafChain(m, id);
    ChainParent(m, id, ids);
  }

  /** A message nobody has seen yet has no children. */
  lemma FreshIsChildFree(m: map<string, Stored>, id: string, stored: Stored)
    requires Grounded(m) && id != "" && id !in m && stored.parent != id
    ensures ChildFree(m[id := stored], id)
  {
    forall x | x in m
      ensures m[x].parent != id
    {
      ParentExists(m, x);
    }
  }

  /** A message that was just saved may be listed in an event index. */
  lemma FreshIsListable(d: Disk, leaf: string, id: string, stored: Stored)
    requires Consistent(d) && id != "" && id !in d.messages && stored.parent == leaf && (leaf == "" || leaf in d.messages)
    ensures ChildFree(d.messages[id := stored], id)
    ensures d.turn.Some? ==> id != d.turn.value.leaf
  {
    FreshIsChildFree(d.messages, id, stored);
  }

  function WithMessage(d: Disk, id: string, stored: Stored): Disk {
    d.(messages := d.messages[id := stored])
  }

  /** A tool message saved under `leaf` and listed in the event index of `k`. */
  function WithToolEvent(d: Disk, k: Key, id: string, stored: Stored): Disk {
    WithMessage(d, id, stored).(events := d.events[k := EventsOf(d, k) + [id]])
  }

  lemma ToolEventAnswers(d: Disk, k: Key, id: string, stored: Stored)
    requires id !in d.messages && forall e :: e in EventsOf(d, k) ==> e in d.messages
    ensures Answered(WithToolEvent(d, k, id, stored), k) == Answered(d, k) + ResultIds(stored.msg)
  {
    var d' := WithToolEvent(d, k, id, stored);
    AnsweredByKept(d.messages, d'.messages, EventsOf(d, k));
    assert EventsOf(d', k)[..|EventsOf(d, k)|] == EventsOf(d, k);
  }

  /** Appending a tool message that answers some of the open calls keeps the
      history and the event index in step. */
  lemma ToolEventKeepsCalm(d: Disk, ids: seq<string>, leaf: string, k: Key, id: string, stored: Stored)
    requires Consistent(d) && id != "" && id !in d.messages && IsChain(d.messages, leaf, ids)
    requires stored.parent == leaf && stored.msg.role == Tool
    requires CalmStep(d, ids, leaf, k) && Unresolved(d, k) != {}
    requires d.results[k].assistantId in d.messages
    ensures CalmStep(WithToolEvent(d, k, id, stored), ids + [id], id, k)
  {
    ToolEventKeepsStep(d, k, id, stored);
    ToolMessageScanned(d.messages, ids, leaf, id, stored, Unresolved(d, k));
    FreshIsChildFree(d.messages, id, stored);
  }

  lemma ToolMessageScanned(
    m: map<string, Stored>, ids: seq<string>, leaf: string, id: string, stored: Stored, pending: set<string>)
    requires id != "" && id !in m && IsChain(m, leaf, ids) && stored.parent == leaf && stored.msg.role == Tool
    requires pending != {} && ChainPending(m, ids, pending)
    ensures ChainPending(m[id := stored], ids + [id], pending - ResultIds(stored.msg))
  {
    ChainExtended(m, id, stored, ids);
    ScanSnoc({}, MessagesOf(m, ids), stored.msg);
  }

  lemma ToolEventKeepsStep(d: Disk, k: Key, id: string, stored: Stored)
    requires id !in d.messages && forall e :: e in EventsOf(d, k) ==> e in d.messages
    requires k in d.results && d.results[k].assistantId in d.messages
    ensures var d' := WithToolEvent(d, k, id, stored);
      && StepMessage(d', k) == StepMessage(d, k)
      && Unresolved(d', k) == Unresolved(d, k) - ResultIds(stored.msg)
      && (AsyncKnown(d, k) ==> AsyncKnown(d', k))
  {
    ToolEventAnswers(d, k, id, stored);
  }

  lemma AtStepFacts(d: Disk, ts: TurnState, ids: seq<string>, calm: bool)
    requires AtStep(d, ts, ids, calm)
    ensures AtStep(d, ts, ids, false) && Savable(d, ts, ids) && IsChain(d.messages, ts.leaf, ids)
    ensures d.turn.Some? && d.turn.value.id == ts.id && d.turn.value.step == ts.step
    ensures StepKey(ts) in d.results && d.results[StepKey(ts)].assistantId in d.messages
  {
  }

  /** Writing the turn state leaves it writable. */
  lemma SavedTurn(d: Disk, ts: TurnState, ids: seq<string>)
    requires Savable(d, ts, ids)
    ensures Savable(d.(turn := Some(ts)), ts, ids)
  {
  }

  lemma SavedAtStep(d: Disk, ts: TurnState, ids: seq<string>, calm: bool)
    requires AtStep(d, ts, ids, calm)
    ensures var d' := d.(turn := Some(ts));
      && AtStep(d', ts, ids, calm) && Answered(d', StepKey(ts)) == Answered(d, StepKey(ts))
      && StepMessage(d', StepKey(ts)) == StepMessage(d, StepKey(ts))
  {
    SavedTurn(d, ts, ids);
  }

  /** The turn waits for the answer to a question about a call of its step. A
      pending ID can only be missing after a crash inside a cancellation. */
  ghost predicate Asking(d: Disk, ts: TurnState, ids: seq<string>, calm: bool) {
    && AtStep(d, ts, ids, calm) && d.turn == Some(ts) && ts.phase == WaitingForAnswer
    && (calm ==>
          && AskKey(ts.id, ts.pending) in d.questions
          && OpenCall(d, StepKey(ts), d.questions[AskKey(ts.id, ts.pending)].callId))
  }

  /** Moving between the phases of one step. */
  lemma PhaseChanged(d: Disk, ts: TurnState, ids: seq<string>, calm: bool, phase: Phase, pending: string)
    requires AtStep(d, ts, ids, calm)
    requires if phase == WaitingForAnswer then AskKey(ts.id, pending) in d.questions else pending == ""
    requires pending == "" || pending == ts.pending || AskKey(ts.id, pending) !in d.answers
    ensures AtStep(d, ts.(phase := phase, pending := pending), ids, calm)
  {
  }

  lemma QuestionSaved(d: Disk, ts: TurnState, ids: seq<string>, calm: bool, q: AskKey, question: Question)
    requires AtStep(d, ts, ids, calm) && q !in d.questions
    ensures var d' := d.(questions := d.questions[q := question]);
      && AtStep(d', ts, ids, calm) && Answered(d', StepKey(ts)) == Answered(d, StepKey(ts))
      && StepMessage(d', StepKey(ts)) == StepMessage(d, StepKey(ts))
  {
  }

  /** The async index of the step was replaced by one of distinct known calls. */
  lemma AsyncSaved(d: Disk, ts: TurnState, ids: seq<string>, calm: bool, cs: seq<Continuation>)
    requires AtStep(d, ts, ids, calm)
    requires calm ==> KnownContinuations(cs, KnownIds(d, StepKey(ts)))
    ensures var d' := d.(async := d.async[StepKey(ts) := cs]);
      && AtStep(d', ts, ids, calm) && Answered(d', StepKey(ts)) == Answered(d, StepKey(ts))
      && StepMessage(d', StepKey(ts)) == StepMessage(d, StepKey(ts))
  {
  }

  /** What the appended tool messages left of the step. */
  lemma WorkedFacts(d: Disk, ts: TurnState, d': Disk, ts': TurnState, ids: seq<string>)
    requires AtStep(d, ts, ids, false) && Worked(d, ts, d', ts')
    ensures d'.results == d.results && d'.async == d.async && d'.turn == d.turn
    ensures d'.questions == d.questions && d'.answers == d.answers
    ensures StepKey(ts') == StepKey(ts) && StepMessage(d', StepKey(ts)) == StepMessage(d, StepKey(ts))
    ensures Answered(d, StepKey(ts)) <= Answered(d', StepKey(ts))
  {
    AnsweredGrows(d, d', StepKey(ts));
  }

  lemma WorkedRefl(d: Disk, ts: TurnState)
    ensures Worked(d, ts, d, ts)
  {
  }

  lemma WorkedTrans(a: Disk, t: TurnState, b: Disk, t': TurnState, c: Disk, t'': TurnState)
    requires Worked(a, t, b, t') && Worked(b, t', c, t'')
    ensures Worked(a, t, c, t'')
  {
    OnlyToolWorkTrans(a, b, c, StepKey(t));
  }

  lemma EventsExist(d: Disk, k: Key)
    requires Consistent(d)
    ensures forall e :: e in EventsOf(d, k) ==> e in d.messages
  {
  }

  /** The step goes on while messages are appended. */
  lemma StepGoesOn(d: Disk, ts: TurnState, ids: seq<string>, d': Disk, ts': TurnState, ids': seq<string>)
    requires AtStep(d, ts, ids, false) && Worked(d, ts, d', ts') && IsChain(d'.messages, ts'.leaf, ids')
    ensures AtStep(d', ts', ids', false)
  {
  }

  /** A message that no event index lists answers no call. */
  lemma SavingAnswersNothing(d: Disk, k: Key, id: string, stored: Stored)
    requires Consistent(d) && id !in d.messages
    ensures Answered(WithMessage(d, id, stored), k) == Answered(d, k)
  {
    EventsExist(d, k);
    AnsweredByKept(d.messages, d.messages[id := stored], EventsOf(d, k));
  }

  /** Half way: the tool message is saved but not listed yet. */
  lemma ToolMessageSaved(d: Disk, ts: TurnState, ids: seq<string>, id: string, stored: Stored)
    requires Consistent(d) && AtStep(d, ts, ids, false) && id != "" && id !in d.messages && stored.parent == ts.leaf
    ensures var d' := WithMessage(d, id, stored);
      && AtStep(d', ts.(leaf := id), ids + [id], false) && Worked(d, ts, d', ts.(leaf := id))
      && Answered(d', StepKey(ts)) == Answered(d, StepKey(ts))
  {
    hide Consistent, Answered;
    SavingAnswersNothing(d, StepKey(ts), id, stored);
    ChainExtended(d.messages, id, stored, ids);
    StepGoesOn(d, ts, ids, WithMessage(d, id, stored), ts.(leaf := id), ids + [id]);
  }

  /** The tool message is saved and listed. */
  lemma ToolEventSaved(d: Disk, ts: TurnState, ids: seq<string>, calm: bool, id: string, stored: Stored)
    requires Consistent(d) && AtStep(d, ts, ids, calm) && id != "" && id !in d.messages
    requires stored.parent == ts.leaf && stored.msg.role == Tool
    requires calm ==> Unresolved(d, StepKey(ts)) != {}
    ensures var d' := WithToolEvent(d, StepKey(ts), id, stored);
      && AtStep(d', ts.(leaf := id), ids + [id], calm) && Worked(d, ts, d', ts.(leaf := id))
      && Answered(d', StepKey(ts)) == Answered(d, StepKey(ts)) + ResultIds(stored.msg)
  {
    hide Consistent, CalmStep, Answered, TurnConsistent;
    var k := StepKey(ts);
    EventsExist(d, k);
    ToolEventAnswers(d, k, id, stored);
    ChainExtended(d.messages, id, stored, ids);
    StepGoesOn(d, ts, ids, WithToolEvent(d, k, id, stored), ts.(leaf := id), ids + [id]);
    if calm {
      ToolEventKeepsCalm(d, ids, ts.leaf, k, id, stored);
    }
  }

  function WithAssistantId(d: Disk, k: Key, id: string): Disk
    requires k in d.results
  {
    d.(results := d.results[k := d.results[k].(assistantId := id)])
  }

  /** The assistant message of a fresh step opens exactly its executor calls. */
  lemma AssistantSavedIsCalm(d: Disk, ids: seq<string>, leaf: string, k: Key, id: string, stored: Stored)
    requires Grounded(d.messages) && id != "" && id !in d.messages && IsChain(d.messages, leaf, ids)
    requires leaf != "" && ChainPending(d.messages, ids, {}) && k in d.results
    requires FutureClean(d, k.turn, k.step + 1) && k !in d.events && k !in d.async
    requires stored.parent == leaf && stored.msg.role == Assistant
    requires stored.msg.parts == d.results[k].assistant.parts && CallsRecorded(d.results[k])
    ensures var d2 := WithAssistantId(WithMessage(d, id, stored), k, id);
      CalmStep(d2, ids + [id], id, k) && Unresolved(d2, k) == CallIds(stored.msg)
  {
    var d2 := WithAssistantId(WithMessage(d, id, stored), k, id);
    ChainExtended(d.messages, id, stored, ids);
    ScanSnoc({}, MessagesOf(d.messages, ids), stored.msg);
    FreshIsChildFree(d.messages, id, stored);
    assert StepMessage(d2, k) == stored.msg;
    assert EventsOf(d2, k) == [] && AsyncOf(d2, k) == [];
    assert Unresolved(d2, k) == CallIds(stored.msg);
  }

  /** The turn on disk moved from step `k` to the start of the next step, and every
      call of the step it left has a result in its event index. */
  ghost predicate AtNextStep(d: Disk, k: Key, ts': TurnState, ids: seq<string>, calm: bool) {
    && Savable(d, ts', ids) && d.turn == Some(ts')
    && ts'.id == k.turn && ts'.step == k.step + 1 && ts'.phase == Streaming
    && AllAnswered(d, k)
    && (calm ==> CalmStart(d, ids, ts'.leaf, ts'.id, ts'.step))
  }

  lemma StepLeft(d: Disk, ts: TurnState, ids: seq<string>, calm: bool)
    requires AtStep(d, ts, ids, calm) && Unresolved(d, StepKey(ts)) == {}
    ensures var ts' := ts.(step := ts.step + 1, phase := Streaming, pending := "");
      Savable(d, ts', ids) && AtNextStep(d.(turn := Some(ts')), StepKey(ts), ts', ids, calm)
  {
    var k := StepKey(ts);
    forall c | c in CallIds(StepMessage(d, k))
      ensures c in Answered(d, k)
    {
      assert c !in Unresolved(d, k);
    }
    assert AllAnswered(d.(turn := Some(ts.(step := ts.step + 1))), StepKey(ts));
  }

  /** In an undisturbed run the calls of a step have distinct IDs and the async
      index names each at most once. */
  lemma CalmCalls(log: seq<Event>, d: Disk, ts: TurnState, ids: seq<string>)
    requires Calm(log) && log != [] && log[|log| - 1].disk == d && AtStep(d, ts, ids, true)
    ensures StepKey(ts) in d.results
    ensures DistinctCalls(StepMessage(d, StepKey(ts)))
    ensures KnownContinuations(AsyncOf(d, StepKey(ts)), KnownIds(d, StepKey(ts)))
  {
    assert !Disturbs(log[|log| - 1]);
  }

  // ----- The streaming phase

  ghost predicate CalmOpen(d: Disk, ids: seq<string>, leaf: string, k: Key) {
    && leaf != "" && ChainPending(d.messages, ids, {}) && ChildrenQuiet(d.messages, leaf)
    && k !in d.events && k !in d.async && FutureClean(d, k.turn, k.step + 1)
  }

  /** About to call the model, or to use what it already said, for this step. */
  ghost predicate AtStart(d: Disk, ts: TurnState, ids: seq<string>, calm: bool) {
    && Savable(d, ts, ids) && d.turn == Some(ts) && ts.phase == Streaming
    && (calm ==> CalmOpen(d, ids, ts.leaf, StepKey(ts)) && StepKey(ts) !in d.results)
  }

  /** The model's reply is on disk, its message not yet. */
  ghost predicate AtResult(d: Disk, ts: TurnState, ids: seq<string>, calm: bool) {
    && Savable(d, ts, ids) && d.turn == Some(ts) && ts.phase == Streaming
    && StepKey(ts) in d.results
    && (calm ==> CalmOpen(d, ids, ts.leaf, StepKey(ts)) && CallsRecorded(d.results[StepKey(ts)]))
  }

  lemma AtStartFacts(d: Disk, ts: TurnState, ids: seq<string>, calm: bool)
    requires AtStart(d, ts, ids, calm)
    ensures AtStart(d, ts, ids, false) && Savable(d, ts, ids) && IsChain(d.messages, ts.leaf, ids)
    ensures d.turn == Some(ts) && ts.phase == Streaming
    ensures calm ==> StepKey(ts) !in d.results && ClosedAt(d, ts.leaf)
  {
  }

  lemma AtResultFacts(d: Disk, ts: TurnState, ids: seq<string>, calm: bool)
    requires AtResult(d, ts, ids, calm)
    ensures AtResult(d, ts, ids, false) && Savable(d, ts, ids) && IsChain(d.messages, ts.leaf, ids)
    ensures d.turn == Some(ts) && ts.phase == Streaming
    ensures StepKey(ts) in d.results
  {
  }

  lemma LeafExists(d: Disk, ts: TurnState, ids: seq<string>)
    requires Savable(d, ts, ids)
    ensures d.turn.Some? && (ts.leaf == "" || ts.leaf in d.messages)
  {
  }

  lemma CalmStartOpens(d: Disk, ts: TurnState, ids: seq<string>, calm: bool)
    requires Savable(d, ts, ids) && d.turn == Some(ts) && ts.phase == Streaming
    requires calm ==> CalmStart(d, ids, ts.leaf, ts.id, ts.step)
    ensures AtStart(d, ts, ids, calm)
  {
  }

  /** Ready for the streaming phase of the step. Undisturbed, the model has not
      been asked yet, or it has and its message is not saved, or the turn was
      over with only its record left to remove. */
  ghost predicate StreamReady(d: Disk, ts: TurnState, ids: seq<string>, calm: bool) {
    && Savable(d, ts, ids) && d.turn == Some(ts) && ts.phase == Streaming
    && (calm ==>
          || AtStart(d, ts, ids, true)
          || (AtResult(d, ts, ids, true) && d.results[StepKey(ts)].assistantId == "")
          || StepEnded(d, ts, ids, true))
  }

  lemma StreamReadyFacts(d: Disk, ts: TurnState, ids: seq<string>, calm: bool)
    requires StreamReady(d, ts, ids, calm)
    ensures StreamReady(d, ts, ids, false) && Savable(d, ts, ids) && IsChain(d.messages, ts.leaf, ids)
    ensures d.turn == Some(ts) && ts.phase == Streaming
    ensures calm ==> ClosedAt(d, ts.leaf) && ChainPending(d.messages, ids, {})
    ensures StepKey(ts) !in d.results ==> AtStart(d, ts, ids, calm)
    ensures StepKey(ts) in d.results && Consistent(d) ==>
      && d.results[StepKey(ts)].assistant.role == Assistant
      && if d.results[StepKey(ts)].assistantId == "" then AtResult(d, ts, ids, calm) else AtReply(d, ts, ids, calm)
  {
  }

  lemma StartIsReady(d: Disk, ts: TurnState, ids: seq<string>, calm: bool)
    requires AtStart(d, ts, ids, calm)
    ensures StreamReady(d, ts, ids, calm)
  {
  }

  lemma ResultIsReady(d: Disk, ts: TurnState, ids: seq<string>, calm: bool)
    requires AtResult(d, ts, ids, calm) && d.results[StepKey(ts)].assistantId == ""
    ensures StreamReady(d, ts, ids, calm)
  {
  }

  /** A user or system message under a tool-closed history keeps it closed. */
  lemma UserMessageScanned(m: map<string, Stored>, ids: seq<string>, leaf: string, id: string, stored: Stored)
    requires Grounded(m) && id != "" && id !in m && IsChain(m, leaf, ids) && ChainPending(m, ids, {})
    requires stored.parent == leaf && (stored.msg.role == User || stored.msg.role == System)
    ensures ChainPending(m[id := stored], ids + [id], {}) && ChildFree(m[id := stored], id)
  {
    ChainExtended(m, id, stored, ids);
    ScanSnoc({}, MessagesOf(m, ids), stored.msg);
    FreshIsChildFree(m, id, stored);
  }

  lemma ReminderSavable(d: Disk, ts: TurnState, ids: seq<string>, id: string, stored: Stored)
    requires Savable(d, ts, ids) && d.turn == Some(ts) && id != "" && id !in d.messages && stored.parent == ts.leaf
    ensures var d1 := WithMessage(d, id, stored); var ts' := ts.(leaf := id);
      Savable(d1, ts', ids + [id]) && Savable(d1.(turn := Some(ts')), ts', ids + [id])
  {
    ChainExtended(d.messages, id, stored, ids);
  }

  /** A reminder to the model before it is called, and the record that names it. */
  lemma ReminderSaved(d: Disk, ts: TurnState, ids: seq<string>, calm: bool, id: string, stored: Stored)
    requires Grounded(d.messages) && StreamReady(d, ts, ids, calm) && id != "" && id !in d.messages
    requires stored.parent == ts.leaf && stored.msg.role == User
    ensures var d1 := WithMessage(d, id, stored); var ts' := ts.(leaf := id);
      && Savable(d1, ts', ids + [id])
      && StreamReady(d1.(turn := Some(ts')), ts', ids + [id], calm)
  {
    hide Savable, Grounded, ChainPending, CallsRecorded, IsChain, ChildFree;
    ReminderSavable(d, ts, ids, id, stored);
    if calm {
      StreamReadyFacts(d, ts, ids, true);
      UserMessageScanned(d.messages, ids, ts.leaf, id, stored);
      ChildFreeIsQuiet(WithMessage(d, id, stored).messages, id);
    }
  }

  lemma ChildFreeIsQuiet(m: map<string, Stored>, leaf: string)
    requires ChildFree(m, leaf)
    ensures ChildrenQuiet(m, leaf)
  {
  }

  /** The remains of a broken stream, saved beside the history. */
  lemma PartialSaved(d: Disk, ts: TurnState, ids: seq<string>, calm: bool, id: string, stored: Stored)
    requires AtStart(d, ts, ids, calm) && id != "" && id !in d.messages
    requires CallIds(stored.msg) == {}
    ensures AtStart(WithMessage(d, id, stored), ts, ids, calm)
  {
    ChainKept(d.messages, d.messages[id := stored], ts.leaf, ids);
  }

  lemma ChunksSaved(d: Disk, ts: TurnState, ids: seq<string>, calm: bool, chunks: map<Key, seq<Chunk>>)
    requires AtStart(d, ts, ids, calm)
    ensures AtStart(d.(chunks := chunks), ts, ids, calm)
  {
  }

  /** The model's reply goes to disk. */
  lemma ReplySaved(d: Disk, ts: TurnState, ids: seq<string>, calm: bool, r: StepResult)
    requires AtStart(d, ts, ids, calm) && StepKey(ts) !in d.results && (calm ==> CallsRecorded(r))
    ensures AtResult(d.(results := d.results[StepKey(ts) := r]), ts, ids, calm)
  {
  }

  /** The turn state once the assistant message `id` is its leaf. */
  function WithAssistant(ts: TurnState, id: string): (ts': TurnState)
    ensures StepKey(ts') == StepKey(ts) && ts'.leaf == id
  {
    ts.(leaf := id, assistantId := if ts.step == 0 && ts.assistantId == "" then id else ts.assistantId)
  }

  /** The step's assistant message is on disk and is the leaf. Undisturbed, its
      calls are what the history waits for, or it has none. */
  ghost predicate AtReply(d: Disk, ts: TurnState, ids: seq<string>, calm: bool) {
    && Savable(d, ts, ids) && d.turn.value.step == ts.step && ts.phase == Streaming
    && StepKey(ts) in d.results && d.results[StepKey(ts)].assistantId in d.messages
    && (calm ==>
          || CalmStep(d, ids, ts.leaf, StepKey(ts))
          || (ChainPending(d.messages, ids, {}) && CallIds(StepMessage(d, StepKey(ts))) == {}))
  }

  lemma AssistantSaved(d: Disk, ts: TurnState, ids: seq<string>, calm: bool, id: string, stored: Stored)
    requires Grounded(d.messages) && AtResult(d, ts, ids, calm) && id != "" && id !in d.messages
    requires d.results[StepKey(ts)].assistantId == ""
    requires stored.parent == ts.leaf && stored.msg.role == Assistant
    requires stored.msg.parts == d.results[StepKey(ts)].assistant.parts
    ensures var d1 := WithMessage(d, id, stored); var ts' := WithAssistant(ts, id);
      && Savable(d1, ts', ids + [id])
      && AtReply(WithAssistantId(d1, StepKey(ts), id), ts', ids + [id], calm)
  {
    hide CalmStep;
    ChainExtended(d.messages, id, stored, ids);
    if calm {
      AssistantSavedIsCalm(d, ids, ts.leaf, StepKey(ts), id, stored);
      assert EventsOf(d, StepKey(ts)) == [];
    }
  }

  /** The message is already there, under the same parent: adopt it. */
  lemma AssistantAdopted(d: Disk, ts: TurnState, ids: seq<string>, calm: bool, id: string)
    requires AtResult(d, ts, ids, calm) && id != "" && id in d.messages
    requires d.results[StepKey(ts)].assistantId == ""
    requires d.messages[id].parent == ts.leaf && d.messages[id].msg.role == Assistant
    ensures var ts' := WithAssistant(ts, id);
      && Savable(d, ts', ids + [id])
      && AtReply(WithAssistantId(d, StepKey(ts), id), ts', ids + [id], calm)
  {
    if calm {
      ScanSnoc({}, MessagesOf(d.messages, ids), d.messages[id].msg);
      assert MessagesOf(d.messages, ids + [id]) == MessagesOf(d.messages, ids) + [d.messages[id].msg];
      assert EventsOf(d, StepKey(ts)) == [];
    }
  }

  lemma AtReplyFacts(d: Disk, ts: TurnState, ids: seq<string>, calm: bool)
    requires AtReply(d, ts, ids, calm)
    ensures Savable(d, ts, ids) && AtReply(d, ts, ids, false)
    ensures d.turn.Some? && d.turn.value.id == ts.id && d.turn.value.step == ts.step && ts.phase == Streaming
    ensures StepKey(ts) in d.results && d.results[StepKey(ts)].assistantId in d.messages
    ensures CallIds(StepMessage(d, StepKey(ts))) != {} ==> AtStep(d, ts, ids, calm)
    ensures calm && CallIds(StepMessage(d, StepKey(ts))) == {} ==> ChainPending(d.messages, ids, {})
  {
    if calm && CallIds(StepMessage(d, StepKey(ts))) == {} && CalmStep(d, ids, ts.leaf, StepKey(ts)) {
      assert Unresolved(d, StepKey(ts)) == {};
    }
  }

  /** The step ended without tool calls: the turn is over. */
  ghost predicate StepEnded(d: Disk, ts: TurnState, ids: seq<string>, calm: bool) {
    && Savable(d, ts, ids) && ts.phase == Streaming
    && StepKey(ts) in d.results && d.results[StepKey(ts)].assistantId in d.messages
    && CallIds(StepMessage(d, StepKey(ts))) == {}
    && (calm ==> ChainPending(d.messages, ids, {}))
  }
}
