/** What a process does to a thread step by step: the writes and calls of a turn
    without reminders, async work and changed tool lists, each from the state
    that the one before it left. */
module ProcessSteps {
  import opened Messages
  import opened Accumulator
  import opened ThreadStore
  import opened RunLog
  import opened StepWork
  import opened StepCalls
  import opened TurnLoop
  import opened Turns

  /** Where a process is, with the turn state it holds in memory: between the
      writes of RunTurn, of the streaming phase, of the tools phase and of the
      answer phase. `Down` is no process at all. */
  datatype Process =
    | Down
    | Opening(turnId: string, leaf: string)
    | Recording(ts: TurnState)
    | Calling(ts: TurnState, own: string, retried: bool)
    | Receiving(ts: TurnState, own: string, retried: bool, begun: bool)
    | Replied(ts: TurnState)
    | Placing(ts: TurnState)
    | Naming(ts: TurnState)
    | Settled(ts: TurnState)
    | Leaving(ts: TurnState)
    | Working(ts: TurnState)
    | Executing(ts: TurnState, callId: string)
    | Questioning(ts: TurnState, callId: string, continuation: string)
    | Asked(ts: TurnState, approvalId: string)
    | Requested(ts: TurnState, approvalId: string)
    | Sleeping(ts: TurnState)
    | Responded(ts: TurnState)
    | Continuing(ts: TurnState)
    | Awaiting(ts: TurnState, callId: string)
    | Holding(ts: TurnState, result: Part)
    | Finished(ts: TurnState)

  datatype State = State(proc: Process, disk: Disk, issued: set<string>)

  const NOBODY := State(Down, EMPTY, {})

  /** One event, one disk, and the IDs that were drawn for it. */
  ghost predicate Does(s: State, e: Event, t: State, action: Action, d: Disk, ids: set<string>) {
    ids !! s.issued && "" !in ids && e == Event(action, d) && t.disk == d && t.issued == s.issued + ids
  }

  // ----- RunTurn, up to the loop

  ghost predicate Starts(s: State, e: Event, t: State) {
    && s.proc == Down && s.disk.turn == None && t.proc.Opening?
    && (t.proc.leaf == "" || t.proc.leaf in s.disk.messages)
    && Does(s, e, t, Started(t.proc.leaf), s.disk, {t.proc.turnId})
  }

  ghost predicate SavesUser(s: State, e: Event, t: State, parts: seq<Part>) {
    && s.proc.Opening? && t.proc.Recording?
    && var ts := t.proc.ts;
    && ts == TurnState(s.proc.turnId, 0, Phase.Streaming, ts.leaf, ts.assistantId, "") && ts.leaf != ts.assistantId
    && Does(s, e, t, Wrote,
         WithMessage(s.disk, ts.leaf, Stored(s.proc.leaf, "", Plain(User, parts).(id := ts.leaf))), {ts.leaf, ts.assistantId})
  }

  ghost predicate SavesRecord(s: State, e: Event, t: State) {
    && s.proc.Recording? && t.proc == Calling(s.proc.ts, s.proc.ts.assistantId, false)
    && Does(s, e, t, Wrote, s.disk.(turn := Some(s.proc.ts)), {})
  }

  // ----- The streaming phase

  ghost predicate CallsModel(s: State, e: Event, t: State) {
    && s.proc.Calling? && t.proc == Receiving(s.proc.ts, s.proc.own, s.proc.retried, false)
    && Does(s, e, t, CalledProvider(StepKey(s.proc.ts), s.proc.ts.leaf), s.disk, {})
  }

  /** The step file is created. */
  ghost predicate OpensFile(s: State, e: Event, t: State) {
    && s.proc.Receiving? && !s.proc.begun && t.proc == s.proc.(begun := true)
    && Does(s, e, t, Wrote, s.disk.(chunks := s.disk.chunks[StepKey(s.proc.ts) := []]), {})
  }

  ghost predicate AppendsChunk(s: State, e: Event, t: State, chunk: Chunk) {
    && s.proc.Receiving? && s.proc.begun && t.proc == s.proc && StepKey(s.proc.ts) in s.disk.chunks
    && var k := StepKey(s.proc.ts);
    Does(s, e, t, Wrote, s.disk.(chunks := s.disk.chunks[k := s.disk.chunks[k] + [chunk]]), {})
  }

  /** The stream ended well. */
  ghost predicate SavesReply(s: State, e: Event, t: State, r: StepResult) {
    && s.proc.Receiving? && s.proc.begun && t.proc == Process.Replied(s.proc.ts) && StepKey(s.proc.ts) in s.disk.chunks
    && var k := StepKey(s.proc.ts);
    && StreamParts(s.disk.chunks[k], r.assistant.parts) && r.assistant.role == Assistant
    && (s.proc.own != "" ==> r.assistant.id == s.proc.own) && (!s.proc.retried ==> r.replacesId == "")
    && r.assistantId == "" && CallsMatch(r)
    && Does(s, e, t, Wrote, s.disk.(results := s.disk.results[k := r]), {})
  }

  /** The first stream broke off recoverably after some text: the text is kept
      beside the history and the model is asked again, under a new ID. */
  ghost predicate SavesPartial(s: State, e: Event, t: State, msg: Message, parts: seq<Part>) {
    && s.proc.Receiving? && s.proc.begun && !s.proc.retried && StepKey(s.proc.ts) in s.disk.chunks && s.proc.own != ""
    && t.proc.Calling? && t.proc == Calling(s.proc.ts, t.proc.own, true)
    && StreamParts(s.disk.chunks[StepKey(s.proc.ts)], parts)
    && msg.role == Assistant && msg.parts == ContentParts(parts) && msg.parts != []
    && s.proc.own !in s.disk.messages
    && Does(s, e, t, Wrote, WithMessage(s.disk, s.proc.own, Stored(s.proc.ts.leaf, "", msg)), {t.proc.own})
  }

  /** The provider reports any other error; the record stays on disk. */
  ghost predicate GivesUp(s: State, e: Event, t: State) {
    && s.proc.Receiving? && t.proc == Down && Does(s, e, t, Errored, s.disk, {})
  }

  /** The process dies, wherever it is. */
  ghost predicate Dies(s: State, e: Event, t: State) {
    t.proc == Down && Does(s, e, t, Interrupted, s.disk, {})
  }

  /** ResumeTurn finds a finished step file without a step result. */
  ghost predicate Rebuilds(s: State, e: Event, t: State, r: StepResult) {
    && s.proc == Down && s.disk.turn.Some? && s.disk.turn.value.phase == Phase.Streaming
    && var ts := s.disk.turn.value; var k := StepKey(ts);
    && k !in s.disk.results && k in s.disk.chunks && (exists i :: 0 <= i < |s.disk.chunks[k]| && s.disk.chunks[k][i].Finish?)
    && Recovered(s.disk.chunks[k], true, r) && (ts.step == 0 ==> r.assistant.id == ts.assistantId)
    && t.proc == Process.Replied(ts)
    && Does(s, e, t, Rebuilt(k), s.disk.(results := s.disk.results[k := r]), {})
  }

  ghost predicate SavesUsage(s: State, e: Event, t: State) {
    && s.proc.Replied? && t.proc == Placing(s.proc.ts)
    && Does(s, e, t, Wrote, s.disk.(turn := Some(s.proc.ts)), {})
  }

  ghost predicate SavesAssistant(s: State, e: Event, t: State) {
    && s.proc.Placing? && StepKey(s.proc.ts) in s.disk.results
    && var id := s.disk.results[StepKey(s.proc.ts)].assistant.id;
    && id != "" && id !in s.disk.messages && t.proc == Naming(WithAssistant(s.proc.ts, id))
    && Does(s, e, t, Wrote, WithMessage(s.disk, id, StepMessageUnder(s.disk, s.proc.ts)), {})
  }

  ghost predicate FillsName(s: State, e: Event, t: State) {
    && s.proc.Naming? && StepKey(s.proc.ts) in s.disk.results && t.proc == Settled(s.proc.ts)
    && Does(s, e, t, Wrote, WithAssistantId(s.disk, StepKey(s.proc.ts), s.proc.ts.leaf), {})
  }

  /** ErrMessageExists: the message that is there is taken over. */
  ghost predicate Adopts(s: State, e: Event, t: State) {
    && s.proc.Placing? && StepKey(s.proc.ts) in s.disk.results
    && var id := s.disk.results[StepKey(s.proc.ts)].assistant.id;
    && id in s.disk.messages && s.disk.messages[id].parent == s.proc.ts.leaf && s.disk.messages[id].msg.role == Assistant
    && t.proc == Settled(WithAssistant(s.proc.ts, id))
    && Does(s, e, t, Wrote, WithAssistantId(s.disk, StepKey(s.proc.ts), id), {})
  }

  // ----- The end of the turn, or its tools phase

  ghost predicate SavesLastRecord(s: State, e: Event, t: State) {
    && s.proc.Settled? && StepKey(s.proc.ts) in s.disk.results
    && CallIds(StepMessage(s.disk, StepKey(s.proc.ts))) == {}
    && t.proc == Leaving(s.proc.ts) && Does(s, e, t, Wrote, s.disk.(turn := Some(s.proc.ts)), {})
  }

  ghost predicate RemovesRecord(s: State, e: Event, t: State) {
    s.proc.Leaving? && t.proc == Down && Does(s, e, t, Wrote, s.disk.(turn := None), {})
  }

  ghost predicate EntersTools(s: State, e: Event, t: State) {
    && s.proc.Settled? && StepKey(s.proc.ts) in s.disk.results
    && CallIds(StepMessage(s.disk, StepKey(s.proc.ts))) != {}
    && t.proc == Working(s.proc.ts.(phase := Phase.Tools))
    && Does(s, e, t, Wrote, s.disk.(turn := Some(s.proc.ts.(phase := Phase.Tools))), {})
  }

  /** The first call of the step, when the step is still untouched. */
  ghost predicate ExecutesFirst(s: State, e: Event, t: State) {
    && s.proc.Working? && StepKey(s.proc.ts) in s.disk.results
    && var k := StepKey(s.proc.ts); var calls := ExecutorCalls(StepMessage(s.disk, k).parts);
    && k !in s.disk.events && k !in s.disk.async && calls != []
    && t.proc == Executing(s.proc.ts, calls[0].callId)
    && Does(s, e, t, Executed(k, calls[0]), s.disk, {})
  }

  /** The tool asks for approval: the question, the request message, its place in
      the event index, and the record that sleeps on it. */
  ghost predicate ToolAsks(s: State, e: Event, t: State, continuation: string) {
    && s.proc.Executing? && t.proc == Questioning(s.proc.ts, s.proc.callId, continuation)
    && Does(s, e, t, Asks(StepKey(s.proc.ts), s.proc.callId, continuation), s.disk, {})
  }

  ghost predicate SavesAsk(s: State, e: Event, t: State) {
    && s.proc.Questioning? && t.proc.Asked? && t.proc.ts == s.proc.ts
    && var q := AskKey(s.proc.ts.id, t.proc.approvalId);
    Does(s, e, t, Wrote,
      s.disk.(questions := s.disk.questions[q := Question(s.proc.callId, s.proc.ts.step, Phase.Tools, s.proc.continuation)]),
      {t.proc.approvalId})
  }

  ghost predicate SavesRequest(s: State, e: Event, t: State) {
    && s.proc.Asked? && t.proc.Requested? && t.proc == Requested(s.proc.ts.(leaf := t.proc.ts.leaf), s.proc.approvalId)
    && AskKey(s.proc.ts.id, s.proc.approvalId) in s.disk.questions
    && var q := s.disk.questions[AskKey(s.proc.ts.id, s.proc.approvalId)]; var id := t.proc.ts.leaf;
    Does(s, e, t, Wrote, WithMessage(s.disk, id,
      Stored(s.proc.ts.leaf, "", Plain(Tool, [ApprovalRequestPart(s.proc.approvalId, q.callId)]))), {id})
  }

  /** The message that is the leaf goes to the end of the event index. */
  ghost predicate Lists(s: State, e: Event, t: State, ts: TurnState) {
    var k := StepKey(ts);
    Does(s, e, t, Wrote, s.disk.(events := s.disk.events[k := EventsOf(s.disk, k) + [ts.leaf]]), {})
  }

  ghost predicate ListsRequest(s: State, e: Event, t: State) {
    && s.proc.Requested? && Lists(s, e, t, s.proc.ts)
    && t.proc == Sleeping(s.proc.ts.(phase := Phase.WaitingForAnswer, pending := s.proc.approvalId))
  }

  ghost predicate FallsAsleep(s: State, e: Event, t: State) {
    s.proc.Sleeping? && t.proc == Down && Does(s, e, t, Wrote, s.disk.(turn := Some(s.proc.ts)), {})
  }

  // ----- Answers

  ghost predicate SavesAnswer(s: State, e: Event, t: State, approvalId: string, answer: string) {
    && s.proc == Down && t.proc == Down
    && s.disk.turn.Some? && s.disk.turn.value.phase == Phase.WaitingForAnswer
    && var q := AskKey(s.disk.turn.value.id, approvalId);
    q in s.disk.questions && Does(s, e, t, Wrote, s.disk.(answers := s.disk.answers[q := answer]), {})
  }

  /** ResumeTurn finds the answer: the response, its place in the event index, and
      executor.Continue. */
  ghost predicate SavesResponse(s: State, e: Event, t: State) {
    && s.proc == Down && Answerable(s.disk) && t.proc.Responded?
    && t.proc.ts == s.disk.turn.value.(leaf := t.proc.ts.leaf)
    && var ts, id := s.disk.turn.value, t.proc.ts.leaf;
    Does(s, e, t, Wrote, WithMessage(s.disk, id,
      Stored(ts.leaf, "", Plain(Tool, [ApprovalResponsePart(AskedBy(s.disk), ts.pending, true, "")]))), {id})
  }

  ghost predicate ListsResponse(s: State, e: Event, t: State) {
    s.proc.Responded? && t.proc == Continuing(s.proc.ts) && Lists(s, e, t, s.proc.ts)
  }

  /** What executor.Continue is called with once the answer is there. */
  ghost function ContinueWith(d: Disk, k: Key): Action
    requires Answerable(d)
  {
    var ask := AskKey(d.turn.value.id, d.turn.value.pending);
    Continued(k, ContinuedCall(d), d.questions[ask].continuation, d.answers[ask])
  }

  ghost predicate Continues(s: State, e: Event, t: State) {
    && s.proc.Continuing? && Answerable(s.disk) && t.proc == Awaiting(s.proc.ts, ContinuedCall(s.disk))
    && Does(s, e, t, ContinueWith(s.disk, StepKey(s.proc.ts)), s.disk, {})
  }

  /** The tool ends with a result. */
  ghost predicate Returns(s: State, e: Event, t: State, toolName: string, output: Output) {
    && s.proc.Awaiting? && t.proc == Holding(s.proc.ts, ToolResultPart(s.proc.callId, toolName, output))
    && Does(s, e, t, Returned(StepKey(s.proc.ts), t.proc.result), s.disk, {})
  }

  ghost predicate SavesResult(s: State, e: Event, t: State) {
    && s.proc.Holding? && t.proc.Finished? && t.proc.ts == s.proc.ts.(leaf := t.proc.ts.leaf)
    && var id := t.proc.ts.leaf;
    Does(s, e, t, Wrote, WithMessage(s.disk, id, Stored(s.proc.ts.leaf, "", Plain(Tool, [s.proc.result]))), {id})
  }

  ghost predicate ListsResult(s: State, e: Event, t: State) {
    s.proc.Finished? && t.proc == s.proc && Lists(s, e, t, s.proc.ts)
  }

  // ----- Runs of steps

  datatype Move =
    | Starting
    | SavingUser(content: seq<Part>)
    | SavingRecord
    | CallingModel
    | OpeningFile
    | AppendingChunk(chunk: Chunk)
    | SavingReply(reply: StepResult)
    | SavingPartial(partial: Message, streamed: seq<Part>)
    | GivingUp
    | Dying
    | Rebuilding(rebuilt: StepResult)
    | SavingUsage
    | SavingAssistant
    | FillingName
    | Adopting
    | SavingLastRecord
    | RemovingRecord
    | EnteringTools
    | ExecutingFirst
    | ToolAsking(continuation: string)
    | SavingAsk
    | SavingRequest
    | ListingRequest
    | FallingAsleep
    | SavingAnswer(approvalId: string, answer: string)
    | SavingResponse
    | ListingResponse
    | ContinuingTool
    | Returning(toolName: string, output: Output)
    | SavingResult
    | ListingResult

  /** One step of a process, or of the user who answers while there is none. */
  ghost predicate Takes(move: Move, s: State, e: Event, t: State) {
    match move
    case Starting => Starts(s, e, t)
    case SavingUser(parts) => SavesUser(s, e, t, parts)
    case SavingRecord => SavesRecord(s, e, t)
    case CallingModel => CallsModel(s, e, t)
    case OpeningFile => OpensFile(s, e, t)
    case AppendingChunk(chunk) => AppendsChunk(s, e, t, chunk)
    case SavingReply(r) => SavesReply(s, e, t, r)
    case SavingPartial(msg, parts) => SavesPartial(s, e, t, msg, parts)
    case GivingUp => GivesUp(s, e, t)
    case Dying => Dies(s, e, t)
    case Rebuilding(r) => Rebuilds(s, e, t, r)
    case SavingUsage => SavesUsage(s, e, t)
    case SavingAssistant => SavesAssistant(s, e, t)
    case FillingName => FillsName(s, e, t)
    case Adopting => Adopts(s, e, t)
    case SavingLastRecord => SavesLastRecord(s, e, t)
    case RemovingRecord => RemovesRecord(s, e, t)
    case EnteringTools => EntersTools(s, e, t)
    case ExecutingFirst => ExecutesFirst(s, e, t)
    case ToolAsking(continuation) => ToolAsks(s, e, t, continuation)
    case SavingAsk => SavesAsk(s, e, t)
    case SavingRequest => SavesRequest(s, e, t)
    case ListingRequest => ListsRequest(s, e, t)
    case FallingAsleep => FallsAsleep(s, e, t)
    case SavingAnswer(approvalId, answer) => SavesAnswer(s, e, t, approvalId, answer)
    case SavingResponse => SavesResponse(s, e, t)
    case ListingResponse => ListsResponse(s, e, t)
    case ContinuingTool => Continues(s, e, t)
    case Returning(toolName, output) => Returns(s, e, t, toolName, output)
    case SavingResult => SavesResult(s, e, t)
    case ListingResult => ListsResult(s, e, t)
  }

  ghost predicate Steps(s: State, events: seq<Event>, t: State) {
    if events == [] then t == s
    else
      var n := |events| - 1;
      exists mid, move :: Steps(s, events[..n], mid) && Takes(move, mid, events[n], t)
  }

  lemma StepsSnoc(s: State, events: seq<Event>, mid: State, move: Move, e: Event, t: State)
    requires Steps(s, events, mid) && Takes(move, mid, e, t)
    ensures Steps(s, events + [e], t)
  {
    hide Takes;
    assert (events + [e])[..|events|] == events && (events + [e])[|events|] == e;
  }

  lemma LastMove(s: State, events: seq<Event>, t: State) returns (mid: State, move: Move)
    requires Steps(s, events, t) && events != []
    ensures Steps(s, events[..|events| - 1], mid) && Takes(move, mid, events[|events| - 1], t)
  {
    hide Takes;
    mid, move :| Steps(s, events[..|events| - 1], mid) && Takes(move, mid, events[|events| - 1], t);
  }

  lemma {:induction false} StepsJoin(s: State, events: seq<Event>, mid: State, more: seq<Event>, t: State)
    requires Steps(s, events, mid) && Steps(mid, more, t)
    ensures Steps(s, events + more, t)
    decreases |more|
  {
    hide Takes;
    if more == [] {
      assert events + more == events;
    } else {
      hide Steps;
      var n := |more| - 1;
      var late, move := LastMove(mid, more, t);
      StepsJoin(s, events, mid, more[..n], late);
      StepsSnoc(s, events + more[..n], late, move, more[n], t);
      assert events + more == events + more[..n] + [more[n]];
    }
  }
}
