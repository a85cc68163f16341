/** Runs that show what may happen to a reply and to an answer: a process that
    goes step by step loses them, or continues a finished call again. */
module RunWitnesses {
  import opened Messages
  import opened ToolClosure
  import opened Accumulator
  import opened Text
  import opened ThreadStore
  import opened RunLog
  import opened Store
  import opened StepWork
  import opened StepCalls
  import opened TurnLoop
  import opened Turns
  import opened ProcessSteps

  /** A legal log that from its `n`-th event on is made of steps, the first one
      taken in `start`; it arrived at `now`. */
  datatype Trace = Trace(start: State, n: nat, log: seq<Event>, now: State, turns: set<string>, calm: bool)

  ghost predicate Walks(r: Trace) {
    r.n <= |r.log| && Steps(r.start, r.log[r.n..], r.now)
  }

  /** Between two steps; `Good` if nothing that a tool returned is still to be recorded. */
  ghost predicate Sound(r: Trace) {
    && Walks(r)
    && LegalRun(r.log) && r.log != [] && r.log[|r.log| - 1].disk == r.now.disk && Consistent(r.now.disk)
    && TurnsIn(r.log, r.turns) && TurnId(r.now.disk) <= r.turns
    && (r.calm ==> Calm(r.log))
  }

  ghost predicate Good(r: Trace) {
    Sound(r) && RecordedAll(r.log)
  }

  ghost function After(r: Trace, e: Event, t: State): Trace {
    r.(log := r.log + [e], now := t, turns := r.turns + TurnId(t.disk), calm := r.calm && e.action != Interrupted)
  }

  /** One step more, if its event is legal. */
  lemma StepAny(r: Trace, move: Move, e: Event, t: State)
    requires Sound(r) && Takes(move, r.now, e, t) && e.disk == t.disk
    requires LegalEvent(r.log, e) && Accounts(r.log, e) && Consistent(t.disk)
    requires SameTurn(r.now.disk, t.disk) || forall id :: id in TurnId(t.disk) ==> id !in r.turns
    requires r.calm ==> !Disturbs(e) || e.action == Interrupted
    ensures Sound(After(r, e, t))
  {
    hide LegalRun, LegalEvent, Accounts, Consistent, Disturbs, Calm, Takes, TurnsIn, SameTurn, Walks;
    StepWalks(r, move, e, t);
    EventAdded(r.log, r.turns, e);
  }

  /** One that returns no result and lists nothing. */
  lemma Step(r: Trace, move: Move, e: Event, t: State)
    requires Good(r) && Takes(move, r.now, e, t) && e.disk == t.disk
    requires LegalEvent(r.log, e) && Consistent(t.disk)
    requires !Speaks(e.action) && t.disk.events == r.now.disk.events
    requires SameTurn(r.now.disk, t.disk) || forall id :: id in TurnId(t.disk) ==> id !in r.turns
    requires r.calm ==> !Disturbs(e) || e.action == Interrupted
    ensures Good(After(r, e, t))
  {
    hide LegalRun, LegalEvent, Consistent, Disturbs, Calm, Takes, Walks, Accounts;
    SettledAccounts(r.log, e);
    StepAny(r, move, e, t);
    QuietSettles(r.log, e);
  }

  ghost predicate RecordedAll(log: seq<Event>) {
    Store.Settled(log)
  }

  lemma QuietSettles(log: seq<Event>, e: Event)
    requires RecordedAll(log) && !Speaks(e.action)
    ensures RecordedAll(log + [e])
  {
    assert (log + [e])[|log| - 1] == log[|log| - 1];
  }

  lemma StepWalks(r: Trace, move: Move, e: Event, t: State)
    requires Walks(r) && Takes(move, r.now, e, t)
    ensures Walks(After(r, e, t))
  {
    hide Takes, Steps;
    StepsSnoc(r.start, r.log[r.n..], r.now, move, e, t);
    assert (r.log + [e])[r.n..] == r.log[r.n..] + [e];
  }

  /** No reply on disk uses a call ID twice. */
  ghost predicate Distinct(d: Disk) {
    forall k :: k in d.results ==> DistinctCalls(d.results[k].assistant)
  }

  ghost predicate Last(r: Trace) {
    r.log != [] && r.log[|r.log| - 1].disk == r.now.disk && Consistent(r.now.disk) && TurnId(r.now.disk) <= r.turns
  }

  lemma GoodEnds(r: Trace)
    requires Good(r)
    ensures Last(r)
  {
  }

  lemma SoundEnds(r: Trace)
    requires Sound(r)
    ensures Last(r)
  {
  }

  /** A write that leaves the turn record alone. */
  lemma Write(r: Trace, move: Move, t: State) returns (next: Trace)
    requires Good(r) && Takes(move, r.now, Event(Wrote, t.disk), t) && t.disk.turn == r.now.disk.turn
    requires t.disk.events == r.now.disk.events
    requires LegalWrite(r.now.disk, t.disk) && RecordsNew(r.now.disk, t.disk) && Consistent(t.disk)
    requires r.calm ==> Distinct(t.disk)
    ensures Good(next) && next == r.(log := r.log + [Event(Wrote, t.disk)], now := t)
  {
    hide LegalRun, LegalWrite, RecordsNew, Consistent, Calm, Takes, Good, DistinctCalls;
    GoodEnds(r);
    Step(r, move, Event(Wrote, t.disk), t);
    next := After(r, Event(Wrote, t.disk), t);
    assert r.turns + TurnId(t.disk) == r.turns;
  }

  /** The turn record is written or removed. */
  lemma WriteTurn(r: Trace, move: Move, t: State) returns (next: Trace)
    requires Good(r) && Takes(move, r.now, Event(Wrote, t.disk), t) && t.disk == r.now.disk.(turn := t.disk.turn)
    requires t.disk.turn.Some? ==>
      && TurnConsistent(r.now.disk, t.disk.turn.value)
      && if r.now.disk.turn.Some? && r.now.disk.turn.value.id == t.disk.turn.value.id
         then TurnMoves(r.now.disk, r.now.disk.turn.value, t.disk.turn.value)
         else t.disk.turn.value.id !in r.turns
    requires r.calm ==> Distinct(t.disk)
    ensures Good(next) && next == r.(log := r.log + [Event(Wrote, t.disk)], now := t, turns := r.turns + TurnId(t.disk))
  {
    hide LegalRun, Consistent, Calm, Takes, Good, DistinctCalls, TurnMoves, TurnConsistent;
    GoodEnds(r);
    TurnWrites(r.now.disk, t.disk.turn);
    hide LegalWrite;
    Step(r, move, Event(Wrote, t.disk), t);
    next := After(r, Event(Wrote, t.disk), t);
  }

  lemma TurnWrites(d: Disk, turn: Option<TurnState>)
    requires Consistent(d)
    requires turn.Some? ==> TurnConsistent(d, turn.value)
    requires turn.Some? && d.turn.Some? && d.turn.value.id == turn.value.id ==> TurnMoves(d, d.turn.value, turn.value)
    ensures var d' := d.(turn := turn); LegalWrite(d, d') && RecordsNew(d, d') && Consistent(d')
  {
    if turn.Some? {
      TurnWriteLegal(d, turn.value);
    } else {
      KeptAlready(d.messages);
    }
  }

  /** An event that writes nothing. */
  lemma Note(r: Trace, move: Move, action: Action, t: State) returns (next: Trace)
    requires Good(r) && Takes(move, r.now, Event(action, t.disk), t) && t.disk == r.now.disk
    requires LegalEvent(r.log, Event(action, t.disk)) && (r.calm ==> Distinct(t.disk)) && !Speaks(action)
    requires action == Interrupted || (action != CancelledWaiting && (action.Started? ==> ClosedAt(t.disk, action.leaf)))
    ensures Good(next)
    ensures next == r.(log := r.log + [Event(action, t.disk)], now := t, calm := r.calm && action != Interrupted)
  {
    hide LegalRun, Consistent, Calm, Takes, Good, LegalEvent, ClosedAt, DistinctCalls;
    GoodEnds(r);
    Step(r, move, Event(action, t.disk), t);
    next := After(r, Event(action, t.disk), t);
    assert r.turns + TurnId(t.disk) == r.turns;
  }

  lemma WriteMessage(r: Trace, move: Move, t: State, id: string, stored: Stored) returns (next: Trace)
    requires Good(r) && Takes(move, r.now, Event(Wrote, t.disk), t)
    requires t.disk == WithMessage(r.now.disk, id, stored) && id != "" && id !in r.now.disk.messages
    requires stored.parent == "" || stored.parent in r.now.disk.messages
    requires r.calm ==> Distinct(t.disk)
    ensures Good(next) && next == r.(log := r.log + [Event(Wrote, t.disk)], now := t)
  {
    hide Good, Takes, LegalWrite, RecordsNew, Consistent, Distinct;
    GoodEnds(r);
    MessageWriteLegal(r.now.disk, id, stored);
    next := Write(r, move, t);
  }

  lemma WriteList(r: Trace, move: Move, t: State, k: Key, id: string) returns (next: Trace)
    requires Good(r) && Takes(move, r.now, Event(Wrote, t.disk), t)
    requires t.disk == r.now.disk.(events := r.now.disk.events[k := EventsOf(r.now.disk, k) + [id]])
    requires id in r.now.disk.messages && ChildFree(r.now.disk.messages, id)
    requires forall p :: p in r.now.disk.messages[id].msg.parts ==> !p.ToolResultPart?
    requires r.now.disk.turn.Some? ==> id != r.now.disk.turn.value.leaf
    requires r.calm ==> Distinct(t.disk)
    ensures Good(next) && next == r.(log := r.log + [Event(Wrote, t.disk)], now := t)
  {
    hide Sound, Takes, Distinct, Accounts, LegalRun;
    SoundEnds(r);
    OwnListingAccounts(r.log, k, id);
    next := WriteListed(r, move, t, k, id);
    QuietSettles(r.log, Event(Wrote, t.disk));
  }

  lemma WriteListed(r: Trace, move: Move, t: State, k: Key, id: string) returns (next: Trace)
    requires Sound(r) && Takes(move, r.now, Event(Wrote, t.disk), t) && Accounts(r.log, Event(Wrote, t.disk))
    requires t.disk == r.now.disk.(events := r.now.disk.events[k := EventsOf(r.now.disk, k) + [id]])
    requires id in r.now.disk.messages && ChildFree(r.now.disk.messages, id)
    requires r.now.disk.turn.Some? ==> id != r.now.disk.turn.value.leaf
    requires r.calm ==> Distinct(t.disk)
    ensures Sound(next) && next == r.(log := r.log + [Event(Wrote, t.disk)], now := t)
  {
    hide Sound, Takes, LegalWrite, RecordsNew, Consistent, ChildFree, Accounts, DistinctCalls;
    SoundEnds(r);
    EventWriteLegal(r.now.disk, k, id);
    StepAny(r, move, Event(Wrote, t.disk), t);
    next := After(r, Event(Wrote, t.disk), t);
    assert r.turns + TurnId(t.disk) == r.turns;
  }

  lemma WriteChunks(r: Trace, move: Move, t: State) returns (next: Trace)
    requires Good(r) && Takes(move, r.now, Event(Wrote, t.disk), t) && t.disk == r.now.disk.(chunks := t.disk.chunks)
    requires r.calm ==> Distinct(t.disk)
    ensures Good(next) && next == r.(log := r.log + [Event(Wrote, t.disk)], now := t)
  {
    hide Good, Takes, Distinct;
    GoodEnds(r);
    AsideLegal(r.now.disk, t.disk);
    hide LegalWrite, RecordsNew, Consistent;
    next := Write(r, move, t);
  }

  lemma WriteResult(r: Trace, move: Move, t: State, k: Key, result: StepResult) returns (next: Trace)
    requires Good(r) && Takes(move, r.now, Event(Wrote, t.disk), t)
    requires t.disk == r.now.disk.(results := r.now.disk.results[k := result]) && result.assistant.role == Assistant
    requires result.assistantId == "" || result.assistantId in r.now.disk.messages
    requires if k in r.now.disk.results
             then ResultKept(r.now.disk.results[k], result) && NamedRightly(r.now.disk, k, result)
             else CallsMatch(result) && result.assistantId == ""
    requires r.calm ==> Distinct(t.disk)
    ensures Good(next) && next == r.(log := r.log + [Event(Wrote, t.disk)], now := t)
  {
    hide Good, Takes, LegalWrite, RecordsNew, Consistent, Distinct, CallsMatch, NamedRightly, ResultKept;
    GoodEnds(r);
    ResultWriteLegal(r.now.disk, k, result);
    next := Write(r, move, t);
  }

  lemma Rebuild(r: Trace, move: Move, t: State, k: Key, result: StepResult) returns (next: Trace)
    requires Good(r) && Takes(move, r.now, Event(Rebuilt(k), t.disk), t) && k !in r.now.disk.results
    requires t.disk == r.now.disk.(results := r.now.disk.results[k := result])
    requires result.assistant.role == Assistant && result.assistantId == "" && result.calls == []
    requires r.calm ==> Distinct(t.disk)
    ensures Good(next) && next == r.(log := r.log + [Event(Rebuilt(k), t.disk)], now := t)
  {
    hide Good, Takes, LegalRun, LegalWrite, Consistent, Calm, DistinctCalls;
    GoodEnds(r);
    ResultWriteLegal(r.now.disk, k, result);
    Step(r, move, Event(Rebuilt(k), t.disk), t);
    next := After(r, Event(Rebuilt(k), t.disk), t);
    assert r.turns + TurnId(t.disk) == r.turns;
  }

  // ----- A turn that asks the model

  /** A process came from nobody's thread to `now`. */
  ghost predicate Came(r: Trace, now: State, calm: bool) {
    Good(r) && r.start == NOBODY && r.n == 1 && r.now == now && r.turns == {"t"} && r.calm == calm
  }

  const STEP := Key("t", 0)
  const ASK := AskKey("t", "q")
  const CALL := ToolCallPart("c", "tool", "{}", None)
  const CHUNKS := [ToolCallChunk("c", "tool", "{}", None), Finish("tool-calls")]
  const USER := Stored("", "", Plain(User, []).(id := "u"))
  const BEGUN := TurnState("t", 0, Phase.Streaming, "u", "a", "")
  const OPENED := EMPTY.(messages := map["u" := USER], turn := Some(BEGUN))

  lemma Beginning()
    ensures Good(Trace(NOBODY, 1, [Event(Begin, EMPTY)], NOBODY, {}, true))
  {
  }

  /** The user message and the record of the turn. */
  lemma Opened() returns (r: Trace)
    ensures Came(r, State(Calling(BEGUN, "a", false), OPENED, {"t", "u", "a"}), true)
  {
    hide Good, LegalRun, LegalWrite, RecordsNew, Consistent, Calm;
    Beginning();
    r := Trace(NOBODY, 1, [Event(Begin, EMPTY)], NOBODY, {}, true);
    var s := State(Opening("t", ""), EMPTY, {"t"});
    EmptyIsClosed();
    r := Note(r, Starting, Started(""), s);
    var d := WithMessage(EMPTY, "u", USER);
    var t := State(Recording(BEGUN), d, {"t", "u", "a"});
    r := WriteMessage(r, SavingUser([]), t, "u", USER);
    s, t := t, State(Calling(BEGUN, "a", false), OPENED, {"t", "u", "a"});
    r := WriteTurn(r, SavingRecord, t);
  }

  lemma EmptyIsClosed()
    ensures ClosedAt(EMPTY, "")
  {
    assert IsChain(EMPTY.messages, "", []);
  }

  lemma UserIsClosed(d: Disk)
    requires "u" in d.messages && d.messages["u"] == USER
    ensures ClosedAt(d, "u")
  {
    assert IsChain(d.messages, "u", ["u"]);
    ScanSnoc({}, [], USER.msg);
    assert MessagesOf(d.messages, ["u"]) == [] + [USER.msg];
  }

  lemma CallLegal(log: seq<Event>, d: Disk, k: Key, leaf: string)
    requires log != [] && log[|log| - 1].disk == d && k !in d.results && ClosedAt(d, leaf)
    requires CurrentStep(d, k) && leaf == d.turn.value.leaf
    ensures LegalEvent(log, Event(CalledProvider(k, leaf), d))
  {
    hide ClosedAt, Calm;
  }

  lemma ErrorLegal(log: seq<Event>, d: Disk)
    requires log != [] && log[|log| - 1].disk == d
    ensures LegalEvent(log, Event(Errored, d)) && LegalEvent(log, Event(Interrupted, d))
  {
  }

  /** The model is asked and the step file opened. */
  lemma ModelAsked(r: Trace, own: string, retried: bool, d: Disk, issued: set<string>) returns (next: Trace)
    requires Came(r, State(Calling(BEGUN, own, retried), d, issued), true)
    requires "u" in d.messages && d.messages["u"] == USER && d.results == map[] && d.turn == Some(BEGUN)
    ensures Came(next,
      State(Receiving(BEGUN, own, retried, true), d.(chunks := d.chunks[STEP := []]), issued), true)
  {
    hide Good, LegalRun, Calm, ClosedAt, LegalEvent, Consistent, DistinctCalls;
    var s := State(Receiving(BEGUN, own, retried, false), d, issued);
    UserIsClosed(d);
    GoodEnds(r);
    CallLegal(r.log, d, STEP, "u");
    next := Note(r, CallingModel, CalledProvider(STEP, "u"), s);
    var d' := d.(chunks := d.chunks[STEP := []]);
    var t := State(Receiving(BEGUN, own, retried, true), d', issued);
    next := WriteChunks(next, OpeningFile, t);
  }

  lemma Appended(r: Trace, proc: Process, d: Disk, issued: set<string>, chunks: seq<Chunk>, chunk: Chunk)
    returns (next: Trace)
    requires proc.Receiving? && proc.begun && proc.ts == BEGUN && d.results == map[]
    requires Came(r, State(proc, d.(chunks := d.chunks[STEP := chunks]), issued), true)
    ensures Came(next, State(proc, d.(chunks := d.chunks[STEP := chunks + [chunk]]), issued), true)
  {
    hide Good, LegalRun, Calm;
    var d' := d.(chunks := d.chunks[STEP := chunks + [chunk]]);
    var t := State(proc, d', issued);
    assert d'.chunks == r.now.disk.chunks[STEP := chunks + [chunk]];
    next := WriteChunks(r, AppendingChunk(chunk), t);
  }

  /** A whole reply that runs one tool goes to the step file. */
  lemma Streamed(r: Trace, own: string, retried: bool, d: Disk, issued: set<string>) returns (next: Trace)
    requires Came(r, State(Calling(BEGUN, own, retried), d, issued), true)
    requires "u" in d.messages && d.messages["u"] == USER && d.results == map[] && d.turn == Some(BEGUN)
    ensures Came(next,
      State(Receiving(BEGUN, own, retried, true), d.(chunks := d.chunks[STEP := CHUNKS]), issued), true)
  {
    hide Came;
    next := ModelAsked(r, own, retried, d, issued);
    var proc := Receiving(BEGUN, own, retried, true);
    next := Appended(next, proc, d, issued, [], CHUNKS[0]);
    assert [] + [CHUNKS[0]] == [CHUNKS[0]] && [CHUNKS[0]] + [CHUNKS[1]] == CHUNKS;
    next := Appended(next, proc, d, issued, [CHUNKS[0]], CHUNKS[1]);
  }

  /** The result of the step: its reply runs one tool. */
  function Reply(rebuilt: bool): StepResult {
    StepResult("", "", Plain(Assistant, [CALL]).(id := "a"), if rebuilt then [] else [CallInfo("c", "tool", "{}")])
  }

  lemma ReplyCalls(m: Message)
    requires m.parts == [CALL]
    ensures ExecutorCalls(m.parts) == [CALL] && CallIds(m) == {"c"} && DistinctCalls(m)
  {
    var parts: seq<Part> := [CALL];
    assert parts[..0] == [];
    assert m.parts[0] == CALL;
  }

  lemma ReplyRecords()
    ensures CallsMatch(Reply(false))
  {
    ReplyCalls(Reply(false).assistant);
  }

  lemma RepliesAreDistinct(d: Disk)
    requires forall k :: k in d.results ==> d.results[k].assistant.parts == [CALL]
    ensures Distinct(d)
  {
    forall k | k in d.results
      ensures DistinctCalls(d.results[k].assistant)
    {
      ReplyCalls(d.results[k].assistant);
    }
  }

  /** The step file says just that. */
  lemma ChunksMean()
    ensures StreamParts(CHUNKS, [CALL])
  {
    hide TrimSpace;
    var first := CHUNKS[..1];
    assert first[..0] == [] && first[0] == CHUNKS[0];
    assert Accumulate(INITIAL, first) == INITIAL.(parts := [CALL]);
    assert Accumulate(INITIAL, CHUNKS).parts == [CALL];
  }

  /** The reply becomes the step result: written at the end of the stream, or read
      back from the step file, because the provider failed after its last chunk. */
  lemma Ended(r: Trace, d: Disk, own: string, retried: bool, issued: set<string>, rebuilt: bool) returns (next: Trace)
    requires Came(r, State(Receiving(BEGUN, own, retried, true), d, issued), true)
    requires d.turn == Some(BEGUN) && d.results == map[] && STEP in d.chunks && d.chunks[STEP] == CHUNKS
    requires rebuilt || own == "a"
    ensures Came(next, State(Process.Replied(BEGUN), d.(results := d.results[STEP := Reply(rebuilt)]), issued), true)
  {
    hide Good, LegalRun, Calm, Takes, Distinct, StreamParts, LegalEvent, CallsMatch, DistinctCalls;
    var d', s := d.(results := d.results[STEP := Reply(rebuilt)]), State(Down, d, issued);
    RepliesAreDistinct(d);
    RepliesAreDistinct(d');
    if rebuilt {
      GoodEnds(r);
      ErrorLegal(r.log, d);
      GivesUpHere(r.now, s);
      next := Note(r, GivingUp, Errored, s);
      RebuildStep(s, d');
      next := Rebuild(next, Rebuilding(Reply(true)), State(Process.Replied(BEGUN), d', issued), STEP, Reply(true));
    } else {
      ChunksMean();
      ReplyRecords();
      SaveStep(r.now, d');
      next := WriteResult(r, SavingReply(Reply(false)), State(Process.Replied(BEGUN), d', issued), STEP, Reply(false));
    }
  }

  lemma GivesUpHere(now: State, s: State)
    requires now.proc.Receiving? && s == State(Down, now.disk, now.issued)
    ensures Takes(GivingUp, now, Event(Errored, now.disk), s)
  {
  }

  lemma SaveStep(now: State, d': Disk)
    requires now.proc.Receiving? && now.proc.begun && now.proc.ts == BEGUN && now.proc.own == "a"
    requires now.disk.results == map[] && STEP in now.disk.chunks && now.disk.chunks[STEP] == CHUNKS
    requires d' == now.disk.(results := now.disk.results[STEP := Reply(false)])
    requires StreamParts(CHUNKS, [CALL]) && CallsMatch(Reply(false))
    ensures Takes(SavingReply(Reply(false)), now, Event(Wrote, d'), State(Process.Replied(BEGUN), d', now.issued))
  {
    hide CallsMatch, StreamParts, ExecutorCalls;
  }

  lemma RebuildStep(s: State, d': Disk)
    requires s.proc == Down && s.disk.turn == Some(BEGUN)
    requires s.disk.results == map[] && STEP in s.disk.chunks && s.disk.chunks[STEP] == CHUNKS
    requires d' == s.disk.(results := s.disk.results[STEP := Reply(true)])
    ensures Takes(Rebuilding(Reply(true)), s, Event(Rebuilt(STEP), d'), State(Process.Replied(BEGUN), d', s.issued))
  {
    hide StreamParts;
    ChunksMean();
    RecoveredFrom(CHUNKS, true, [CALL], Reply(true));
    hide Recovered;
    assert CHUNKS[1].Finish?;
  }

  /** The record is written again, with the usage of the step. */
  lemma Used(r: Trace, d: Disk, issued: set<string>) returns (next: Trace)
    requires Came(r, State(Process.Replied(BEGUN), d, issued), true) && d.turn == Some(BEGUN) && Distinct(d)
    ensures Came(next, State(Placing(BEGUN), d, issued), true)
  {
    hide Good, LegalRun, Calm, Distinct, Consistent, TurnConsistent, TurnMoves;
    var t := State(Placing(BEGUN), d, issued);
    GoodEnds(r);
    RecordStays(d);
    next := WriteTurn(r, SavingUsage, t);
    assert {"t"} + {"t"} == {"t"};
  }

  lemma RecordStays(d: Disk)
    requires Consistent(d) && d.turn.Some?
    ensures TurnConsistent(d, d.turn.value) && TurnMoves(d, d.turn.value, d.turn.value)
  {
  }

  // ----- A turn that pauses for an answer

  function WithReply(rebuilt: bool): Disk {
    OPENED.(chunks := OPENED.chunks[STEP := CHUNKS], results := OPENED.results[STEP := Reply(rebuilt)])
  }

  /** The model is asked and its reply is the step result. */
  lemma Replying(rebuilt: bool) returns (r: Trace)
    ensures Came(r, State(Placing(BEGUN), WithReply(rebuilt), {"t", "u", "a"}), true)
  {
    hide Came, Reply, Distinct;
    r := Opened();
    r := Streamed(r, "a", false, OPENED, {"t", "u", "a"});
    r := Ended(r, OPENED.(chunks := OPENED.chunks[STEP := CHUNKS]), "a", false, {"t", "u", "a"}, rebuilt);
    OneReply(rebuilt);
    r := Used(r, WithReply(rebuilt), {"t", "u", "a"});
  }

  lemma OneReply(rebuilt: bool)
    ensures Distinct(WithReply(rebuilt))
  {
    hide Distinct;
    RepliesAreDistinct(WithReply(rebuilt));
  }

  const SAVED := TurnState("t", 0, Phase.Tools, "a", "a", "")

  function ReplyMessage(): Stored {
    Stored("u", "", WithMetadata(Plain(Assistant, [CALL]).(id := "a"), "turn"))
  }

  function Saved(rebuilt: bool): Disk {
    WithAssistantId(WithMessage(WithReply(rebuilt), "a", ReplyMessage()), STEP, "a").(turn := Some(SAVED))
  }

  /** The assistant message is saved and the turn starts on its call. */
  lemma Saving(rebuilt: bool) returns (r: Trace)
    ensures Came(r, State(Working(SAVED), Saved(rebuilt), {"t", "u", "a"}), true)
  {
    hide Good, LegalRun, Calm, Takes, Distinct, Consistent, WithMetadata, DistinctCalls;
    r := Replying(rebuilt);
    var d0 := WithReply(rebuilt);
    var d1 := WithMessage(d0, "a", ReplyMessage());
    var d2 := WithAssistantId(d1, STEP, "a");
    var d3 := d2.(turn := Some(SAVED));
    RepliesAreDistinct(d1);
    RepliesAreDistinct(d2);
    RepliesAreDistinct(d3);
    var issued := {"t", "u", "a"};
    AssistantStep(rebuilt, d1, issued);
    NameStep(d1, d2, issued);
    ReplyCalls(StepMessage(d2, STEP));
    ToolsStep(d2, d3, issued);
    r := WriteMessage(r, SavingAssistant, State(Naming(BEGUN.(leaf := "a")), d1, issued), "a", ReplyMessage());
    r := WriteResult(r, FillingName, State(Settled(BEGUN.(leaf := "a")), d2, issued), STEP, Reply(rebuilt).(assistantId := "a"));
    r := WriteTurn(r, EnteringTools, State(Working(SAVED), d3, issued));
    assert {"t"} + {"t"} == {"t"};
  }

  lemma AssistantStep(rebuilt: bool, d1: Disk, issued: set<string>)
    requires d1 == WithMessage(WithReply(rebuilt), "a", ReplyMessage())
    ensures Takes(SavingAssistant,
      State(Placing(BEGUN), WithReply(rebuilt), issued), Event(Wrote, d1), State(Naming(BEGUN.(leaf := "a")), d1, issued))
  {
    hide WithMetadata;
  }

  lemma NameStep(d1: Disk, d2: Disk, issued: set<string>)
    requires STEP in d1.results && d2 == WithAssistantId(d1, STEP, "a")
    ensures var ts := BEGUN.(leaf := "a");
      Takes(FillingName, State(Naming(ts), d1, issued), Event(Wrote, d2), State(Settled(ts), d2, issued))
  {
  }

  lemma ToolsStep(d2: Disk, d3: Disk, issued: set<string>)
    requires STEP in d2.results && CallIds(StepMessage(d2, STEP)) == {"c"} && d3 == d2.(turn := Some(SAVED))
    ensures Takes(EnteringTools,
      State(Settled(BEGUN.(leaf := "a")), d2, issued), Event(Wrote, d3), State(Working(SAVED), d3, issued))
  {
    hide CallIds, StepMessage;
  }

  const QUESTION := Question("c", 0, Tools, "")
  const PAUSED := TurnState("t", 0, Phase.WaitingForAnswer, "r", "a", "q")

  function Request(): Stored {
    Stored("a", "", Plain(Tool, [ApprovalRequestPart("q", "c")]))
  }

  function Questioned(rebuilt: bool): Disk {
    Saved(rebuilt).(questions := Saved(rebuilt).questions[ASK := QUESTION])
  }

  function Asleep(rebuilt: bool): Disk {
    WithToolEvent(Questioned(rebuilt), STEP, "r", Request()).(turn := Some(PAUSED))
  }

  function Paused(rebuilt: bool): Disk {
    Asleep(rebuilt).(answers := Asleep(rebuilt).answers[ASK := "yes"])
  }

  /** The tool is executed. */
  lemma Executed(rebuilt: bool) returns (r: Trace)
    ensures Came(r, State(Executing(SAVED, "c"), Saved(rebuilt), {"t", "u", "a"}), true)
  {
    hide Good, LegalRun, Calm, Takes, Distinct, Consistent, LegalEvent, DistinctCalls;
    r := Saving(rebuilt);
    GoodEnds(r);
    SavedFacts(rebuilt);
    ReplyCalls(StepMessage(Saved(rebuilt), STEP));
    ExecuteStep(Saved(rebuilt), {"t", "u", "a"});
    ExecuteLegal(r.log, Saved(rebuilt), STEP, CALL);
    var s := State(Executing(SAVED, "c"), Saved(rebuilt), {"t", "u", "a"});
    r := Note(r, ExecutingFirst, Action.Executed(STEP, CALL), s);
  }

  /** It asks a question. */
  lemma Questioning(rebuilt: bool) returns (r: Trace)
    ensures Came(r, State(Asked(SAVED, "q"), Questioned(rebuilt), {"t", "u", "a", "q"}), true)
  {
    hide Good, LegalRun, Calm, Takes, Distinct, Consistent, LegalEvent, LegalWrite, RecordsNew, Saved;
    r := Executed(rebuilt);
    GoodEnds(r);
    SavedFacts(rebuilt);
    var issued := {"t", "u", "a"};
    AskStep(Saved(rebuilt), issued);
    AskLegal(r.log, Saved(rebuilt), STEP, "c", "");
    r := Note(r, ToolAsking(""), Asks(STEP, "c", ""), State(Process.Questioning(SAVED, "c", ""), Saved(rebuilt), issued));
    QuestionStep(Saved(rebuilt), Questioned(rebuilt));
    QuestionWriteLegal(Saved(rebuilt), ASK, QUESTION);
    r := Write(r, SavingAsk, State(Asked(SAVED, "q"), Questioned(rebuilt), issued + {"q"}));
    assert issued + {"q"} == {"t", "u", "a", "q"};
  }

  lemma SavedFacts(rebuilt: bool)
    ensures var d := Saved(rebuilt);
      && d.turn == Some(SAVED) && STEP in d.results && StepMessage(d, STEP).parts == [CALL]
      && d.events == map[] && d.async == map[] && d.questions == map[] && d.answers == map[]
      && "a" in d.messages && "r" !in d.messages && d.results[STEP].assistantId == "a"
    ensures Distinct(Saved(rebuilt)) && Distinct(Questioned(rebuilt)) && Distinct(Asleep(rebuilt)) && Distinct(Paused(rebuilt))
    ensures Distinct(WithMessage(Questioned(rebuilt), "r", Request()))
    ensures Distinct(WithToolEvent(Questioned(rebuilt), STEP, "r", Request()))
  {
    hide WithMetadata;
    RepliesAreDistinct(Saved(rebuilt));
  }

  lemma ExecuteLegal(log: seq<Event>, d: Disk, k: Key, call: Part)
    requires log != [] && log[|log| - 1].disk == d && k !in d.events && Executable(d, k, call)
    ensures LegalEvent(log, Event(Action.Executed(k, call), d))
  {
  }

  lemma ExecuteStep(d: Disk, issued: set<string>)
    requires STEP in d.results && ExecutorCalls(StepMessage(d, STEP).parts) == [CALL]
    requires STEP !in d.events && STEP !in d.async
    ensures Takes(ExecutingFirst,
      State(Working(SAVED), d, issued), Event(Action.Executed(STEP, CALL), d), State(Executing(SAVED, "c"), d, issued))
  {
    hide ExecutorCalls, StepMessage;
  }

  lemma AskStep(d: Disk, issued: set<string>)
    ensures Takes(ToolAsking(""), State(Executing(SAVED, "c"), d, issued), Event(Asks(STEP, "c", ""), d),
      State(Process.Questioning(SAVED, "c", ""), d, issued))
  {
  }

  lemma AskLegal(log: seq<Event>, d: Disk, k: Key, callId: string, continuation: string)
    requires log != [] && log[|log| - 1].disk == d
    ensures LegalEvent(log, Event(Asks(k, callId, continuation), d))
  {
  }

  lemma QuestionStep(d: Disk, d': Disk)
    requires d' == d.(questions := d.questions[ASK := QUESTION])
    ensures var issued := {"t", "u", "a"}; Takes(SavingAsk,
      State(Process.Questioning(SAVED, "c", ""), d, issued), Event(Wrote, d'), State(Asked(SAVED, "q"), d', issued + {"q"}))
  {
  }

  /** The request is saved and listed, the turn goes to sleep, and the answer
      comes in. */
  lemma Pausing(rebuilt: bool) returns (r: Trace)
    ensures Came(r, State(Down, Paused(rebuilt), {"t", "u", "a", "q", "r"}), true)
  {
    hide Good, LegalRun, Calm, Takes, Distinct, Consistent, LegalWrite, RecordsNew, ChildFree, Grounded;
    r := Questioning(rebuilt);
    GoodEnds(r);
    SavedFacts(rebuilt);
    var issued, ts := {"t", "u", "a", "q", "r"}, SAVED.(leaf := "r");
    var d0, d1 := Questioned(rebuilt), WithMessage(Questioned(rebuilt), "r", Request());
    var d2 := WithToolEvent(d0, STEP, "r", Request());
    RequestStep(d0, d1, issued);
    r := WriteMessage(r, SavingRequest, State(Requested(ts, "q"), d1, issued), "r", Request());
    FreshIsListable(d0, "a", "r", Request());
    ListStep(d1, d2, issued);
    r := WriteList(r, ListingRequest, State(Sleeping(PAUSED), d2, issued), STEP, "r");
    SleepStep(d2, Asleep(rebuilt), issued);
    r := WriteTurn(r, FallingAsleep, State(Down, Asleep(rebuilt), issued));
    assert {"t"} + {"t"} == {"t"};
    GoodEnds(r);
    AnswerWriteLegal(Asleep(rebuilt), ASK, "yes");
    AnswerStep(Asleep(rebuilt), Paused(rebuilt), issued);
    r := Write(r, SavingAnswer("q", "yes"), State(Down, Paused(rebuilt), issued));
  }

  lemma RequestStep(d0: Disk, d1: Disk, issued: set<string>)
    requires ASK in d0.questions && d0.questions[ASK] == QUESTION && d1 == WithMessage(d0, "r", Request())
    requires issued == {"t", "u", "a", "q", "r"}
    ensures Takes(SavingRequest, State(Asked(SAVED, "q"), d0, {"t", "u", "a", "q"}), Event(Wrote, d1),
      State(Requested(SAVED.(leaf := "r"), "q"), d1, issued))
  {
  }

  lemma ListStep(d1: Disk, d2: Disk, issued: set<string>)
    requires d2 == d1.(events := d1.events[STEP := EventsOf(d1, STEP) + ["r"]])
    ensures Takes(ListingRequest, State(Requested(SAVED.(leaf := "r"), "q"), d1, issued), Event(Wrote, d2),
      State(Sleeping(PAUSED), d2, issued))
  {
  }

  lemma SleepStep(d2: Disk, d3: Disk, issued: set<string>)
    requires d3 == d2.(turn := Some(PAUSED))
    ensures Takes(FallingAsleep, State(Sleeping(PAUSED), d2, issued), Event(Wrote, d3), State(Down, d3, issued))
  {
  }

  lemma AnswerStep(d3: Disk, d4: Disk, issued: set<string>)
    requires d3.turn == Some(PAUSED) && ASK in d3.questions && d4 == d3.(answers := d3.answers[ASK := "yes"])
    ensures Takes(SavingAnswer("q", "yes"), State(Down, d3, issued), Event(Wrote, d4), State(Down, d4, issued))
  {
  }

  // ----- What may happen to an answer

  function Response(leaf: string, callId: string, approvalId: string): Stored {
    Stored(leaf, "", Plain(Tool, [ApprovalResponsePart(callId, approvalId, true, "")]))
  }

  function ResultPart(callId: string): Part {
    ToolResultPart(callId, "tool", JsonOutput("{}"))
  }

  function ResultMessage(leaf: string, callId: string): Stored {
    Stored(leaf, "", Plain(Tool, [ResultPart(callId)]))
  }

  /** The same turn record waits for the same answer to the same question. */
  ghost predicate StillAsking(d: Disk, d': Disk)
    requires Answerable(d)
  {
    && Answerable(d') && d'.turn == d.turn && d'.results == d.results
    && AskedBy(d') == AskedBy(d) && ContinuedCall(d') == ContinuedCall(d)
    && forall k :: ContinueWith(d', k) == ContinueWith(d, k)
  }

  /** A tool message under the leaf of the record leaves its answer in place. */
  lemma StillAnswerable(d: Disk, k: Key, id: string, stored: Stored)
    requires Consistent(d) && Answerable(d) && id !in d.messages && stored.msg.role == Tool
    ensures var d' := WithToolEvent(d, k, id, stored);
      StillAsking(d, d') && Answered(d', k) == Answered(d, k) + ResultIds(stored.msg)
  {
    EventsExist(d, k);
    ToolEventAnswers(d, k, id, stored);
  }

  lemma RecordLeaf(d: Disk)
    requires Consistent(d) && d.turn.Some?
    ensures d.turn.value.leaf == "" || d.turn.value.leaf in d.messages
  {
  }

  lemma ContinueLegal(log: seq<Event>, d: Disk, k: Key)
    requires log != [] && log[|log| - 1].disk == d && Answerable(d) && k == StepKey(d.turn.value)
    requires Calm(log) && CallsMatch(d.results[k]) ==> ContinuedCall(d) == AskedBy(d) && AskedBy(d) !in Answered(d, k)
    ensures LegalEvent(log, Event(ContinueWith(d, k), d))
  {
    hide Calm, CallsMatch, Answered, ContinuedCall;
  }

  ghost function Responded(d: Disk, s: string): Disk
    requires Answerable(d)
  {
    WithToolEvent(d, StepKey(d.turn.value), s, Response(d.turn.value.leaf, AskedBy(d), d.turn.value.pending))
  }

  lemma ResponseStep(d: Disk, s: string, issued: set<string>)
    requires Answerable(d) && s != "" && s !in issued
    ensures var stored := Response(d.turn.value.leaf, AskedBy(d), d.turn.value.pending);
      var d1, ts := WithMessage(d, s, stored), d.turn.value.(leaf := s);
      Takes(SavingResponse, State(Down, d, issued), Event(Wrote, d1), State(Process.Responded(ts), d1, issued + {s}))
  {
  }

  lemma ListResponseStep(d1: Disk, d': Disk, ts: TurnState, issued: set<string>)
    requires d' == d1.(events := d1.events[StepKey(ts) := EventsOf(d1, StepKey(ts)) + [ts.leaf]])
    ensures Takes(ListingResponse,
      State(Process.Responded(ts), d1, issued), Event(Wrote, d'), State(Continuing(ts), d', issued))
  {
  }

  lemma ContinueStep(d: Disk, ts: TurnState, issued: set<string>)
    requires Answerable(d)
    ensures Takes(ContinuingTool, State(Continuing(ts), d, issued),
      Event(ContinueWith(d, StepKey(ts)), d), State(Awaiting(ts, ContinuedCall(d)), d, issued))
  {
    hide Answerable, ContinuedCall;
  }

  /** The next process finds the answer, and saves and lists the response. */
  lemma ResponseSaved(r: Trace, d: Disk, issued: set<string>, s: string) returns (next: Trace, d1: Disk)
    requires Good(r) && r.now == State(Down, d, issued) && (r.calm ==> Distinct(d))
    requires Answerable(d) && s != "" && s !in d.messages && s !in issued
    ensures Good(next) && next == r.(
      log := r.log + [Event(Wrote, d1)] + [Event(Wrote, Responded(d, s))],
      now := State(Continuing(d.turn.value.(leaf := s)), Responded(d, s), issued + {s}))
  {
    hide Good, LegalRun, Calm, Takes, Distinct, Consistent, ChildFree, Grounded, ContinuedCall;
    GoodEnds(r);
    RecordLeaf(d);
    var ts, stored := d.turn.value.(leaf := s), Response(d.turn.value.leaf, AskedBy(d), d.turn.value.pending);
    d1 := WithMessage(d, s, stored);
    ResponseStep(d, s, issued);
    ListResponseStep(d1, Responded(d, s), ts, issued + {s});
    SameResults(d, d1);
    SameResults(d, Responded(d, s));
    next := WriteMessage(r, SavingResponse, State(Process.Responded(ts), d1, issued + {s}), s, stored);
    FreshIsListable(d, d.turn.value.leaf, s, stored);
    next := WriteList(next, ListingResponse, State(Continuing(ts), Responded(d, s), issued + {s}), StepKey(ts), s);
  }

  /** Then it continues the tool. */
  lemma ContinuedOnce(r: Trace, d: Disk, issued: set<string>, s: string) returns (next: Trace, d1: Disk)
    requires Good(r) && r.now == State(Down, d, issued) && (r.calm ==> Distinct(d))
    requires Answerable(d) && s != "" && s !in d.messages && s !in issued
    requires var k := StepKey(d.turn.value);
      Calm(r.log) && CallsMatch(d.results[k]) ==> ContinuedCall(d) == AskedBy(d) && AskedBy(d) !in Answered(d, k)
    ensures StillAsking(d, Responded(d, s))
    ensures Answered(Responded(d, s), StepKey(d.turn.value)) == Answered(d, StepKey(d.turn.value))
    ensures var k, d' := StepKey(d.turn.value), Responded(d, s);
      && Good(next)
      && next == r.(
           log := r.log + [Event(Wrote, d1)] + [Event(Wrote, d')] + [Event(ContinueWith(d', k), d')],
           now := State(Awaiting(d.turn.value.(leaf := s), ContinuedCall(d)), d', issued + {s}))
  {
    hide Good, LegalRun, Calm, Takes, Distinct, Consistent, Grounded, LegalEvent, CallsMatch, Answered, ContinuedCall;
    GoodEnds(r);
    var k, ts, d' := StepKey(d.turn.value), d.turn.value.(leaf := s), Responded(d, s);
    var stored := Response(d.turn.value.leaf, AskedBy(d), d.turn.value.pending);
    next, d1 := ResponseSaved(r, d, issued, s);
    StillAnswerable(d, k, s, stored);
    assert ResultIds(stored.msg) == {};
    hide WithToolEvent, Answerable;
    WritesKeepCalm(r.log, d1, d', next.log);
    ContinueLegal(next.log, d', k);
    ContinueStep(d', ts, issued + {s});
    SameResults(d, d');
    next := Note(next, ContinuingTool, ContinueWith(d', k), State(Awaiting(ts, ContinuedCall(d)), d', issued + {s}));
  }

  lemma SameResults(d: Disk, d': Disk)
    requires d'.results == d.results
    ensures Distinct(d) ==> Distinct(d')
  {
  }

  lemma WritesKeepCalm(log: seq<Event>, d1: Disk, d2: Disk, longer: seq<Event>)
    requires longer == log + [Event(Wrote, d1)] + [Event(Wrote, d2)]
    ensures Calm(longer) ==> Calm(log)
  {
    assert forall i :: 0 <= i < |log| ==> longer[i] == log[i];
  }

  /** The answer to a question about one of the calls goes to an empty call. */
  ghost predicate Lost(e: Event) {
    && e.action.Continued? && e.action.callId == ""
    && Answerable(e.disk) && AskedBy(e.disk) != "" && e.action.key in e.disk.results
    && AskedBy(e.disk) in CallIds(StepMessage(e.disk, e.action.key))
    && e.action.key in e.disk.chunks
    && StreamParts(e.disk.chunks[e.action.key], e.disk.results[e.action.key].assistant.parts)
  }

  /** A process may lose an answer without any crash: the step result was read back
      from the step file and records no calls. */
  lemma AnswerLost() returns (log: seq<Event>, now: State)
    ensures LegalRun(log) && Calm(log) && log != [] && Steps(NOBODY, log[1..], now)
    ensures Lost(log[|log| - 1])
  {
    hide Good, LegalRun, Steps, Calm, Lost, Paused, Answerable, ContinuedCall, AskedBy, Responded, Distinct, CallsMatch,
      StillAsking;
    var r := Pausing(true);
    PausedFacts(true);
    ReplyUnrecorded();
    var d1;
    r, d1 := ContinuedOnce(r, Paused(true), {"t", "u", "a", "q", "r"}, "s");
    LostHere(Responded(Paused(true), "s"));
    Ran(r);
    log, now := r.log, r.now;
  }

  lemma Ran(r: Trace)
    requires Good(r)
    ensures LegalRun(r.log) && r.log != [] && (r.calm ==> Calm(r.log))
    ensures r.n <= |r.log| && Steps(r.start, r.log[r.n..], r.now)
  {
  }

  lemma ReplyUnrecorded()
    ensures !CallsMatch(Paused(true).results[STEP])
  {
    ReplyCalls(Reply(true).assistant);
  }

  lemma PausedFacts(rebuilt: bool)
    ensures var d := Paused(rebuilt);
      && d.turn == Some(PAUSED) && "s" !in d.messages && "x" !in d.messages && "y" !in d.messages && STEP in d.results
      && Answerable(d) && AskedBy(d) == "c" && ContinuedCall(d) == (if rebuilt then "" else "c")
      && (Records(d.results[STEP], "c") <==> !rebuilt)
      && Answered(d, STEP) == {}
      && Distinct(d)
  {
    hide WithMetadata, Distinct;
    SavedFacts(rebuilt);
    var d := Paused(rebuilt);
    assert rebuilt || d.results[STEP].calls[0].callId == "c";
    assert EventsOf(d, STEP) == ["r"] && AnsweredBy(d.messages, ["r"][..0]) == {};
    assert ResultIds(Request().msg) == {};
  }

  lemma LostHere(d: Disk)
    requires d == Responded(Paused(true), "s") && StillAsking(Paused(true), d)
    ensures Answerable(d) && Lost(Event(ContinueWith(d, STEP), d))
  {
    hide StreamParts, WithMetadata, CallIds, ContinuedCall, Answered, CallsMatch, ExecutorCalls;
    PausedFacts(true);
    ReplyCalls(StepMessage(d, STEP));
    ChunksMean();
  }

  predicate Continues(a: Action, k: Key, callId: string) {
    a.Continued? && a.key == k && a.callId == callId
  }

  /** From `n` on the run continues the call `c`, saves and lists its result `x`,
      dies, and continues the same call again with the same record on disk. */
  ghost predicate ContinuedAgain(log: seq<Event>, n: nat, k: Key, c: string, x: string) {
    && |log| == n + 10
    && log[n + 2].action == log[n + 9].action && Continues(log[n + 2].action, k, c)
    && log[n + 2].disk.turn == log[n + 6].disk.turn == log[n + 9].disk.turn
    && log[n + 6].action == Interrupted
    && c in Answered(log[n + 6].disk, k)
    && x in EventsOf(log[n + 6].disk, k) && !OnRecordChain(log[n + 6].disk, x)
  }

  ghost function Resulted(d: Disk, k: Key, s: string, x: string, c: string): Disk {
    WithToolEvent(d, k, x, ResultMessage(s, c))
  }

  lemma ReturnStep(d: Disk, ts: TurnState, c: string, issued: set<string>)
    ensures Takes(Returning("tool", JsonOutput("{}")), State(Awaiting(ts, c), d, issued),
      Event(Returned(StepKey(ts), ResultPart(c)), d), State(Holding(ts, ResultPart(c)), d, issued))
  {
  }

  lemma ResultStep(d: Disk, ts: TurnState, c: string, x: string, issued: set<string>)
    requires x != "" && x !in issued
    ensures var d1 := WithMessage(d, x, ResultMessage(ts.leaf, c));
      Takes(SavingResult, State(Holding(ts, ResultPart(c)), d, issued), Event(Wrote, d1),
        State(Process.Finished(ts.(leaf := x)), d1, issued + {x}))
  {
  }

  lemma ListResultStep(d1: Disk, d': Disk, ts: TurnState, issued: set<string>)
    requires d' == d1.(events := d1.events[StepKey(ts) := EventsOf(d1, StepKey(ts)) + [ts.leaf]])
    ensures Takes(ListingResult,
      State(Process.Finished(ts), d1, issued), Event(Wrote, d'), State(Process.Finished(ts), d', issued))
  {
  }

  /** The tool ends with a result. */
  lemma ToolReturned(r: Trace, d: Disk, ts: TurnState, c: string, issued: set<string>) returns (next: Trace)
    requires Good(r) && r.now == State(Awaiting(ts, c), d, issued) && !r.calm
    ensures Sound(next) && next == r.(
      log := r.log + [Event(Returned(StepKey(ts), ResultPart(c)), d)], now := State(Holding(ts, ResultPart(c)), d, issued))
    ensures OwesMessage(next.log, StepKey(ts), ResultMessage(ts.leaf, c).msg)
  {
    hide Sound, LegalRun, Calm, Takes, Consistent, Accounts;
    GoodEnds(r);
    var e, t := Event(Returned(StepKey(ts), ResultPart(c)), d), State(Holding(ts, ResultPart(c)), d, issued);
    ReturnStep(d, ts, c, issued);
    SettledAccounts(r.log, e);
    StepAny(r, Returning("tool", JsonOutput("{}")), e, t);
    next := After(r, e, t);
    assert r.turns + TurnId(d) == r.turns;
    assert Answers(e.action, StepKey(ts), ResultPart(c)) && Carries(ResultPart(c), ResultPart(c));
  }

  /** The message with the result is saved. */
  lemma ResultWritten(r: Trace, d: Disk, ts: TurnState, c: string, issued: set<string>, x: string) returns (next: Trace)
    requires Sound(r) && r.now == State(Holding(ts, ResultPart(c)), d, issued) && !r.calm
    requires OwesMessage(r.log, StepKey(ts), ResultMessage(ts.leaf, c).msg)
    requires ts.leaf in d.messages && x != "" && x !in d.messages && x !in issued
    ensures var d1 := WithMessage(d, x, ResultMessage(ts.leaf, c)); Sound(next) && next == r.(
      log := r.log + [Event(Wrote, d1)], now := State(Process.Finished(ts.(leaf := x)), d1, issued + {x}))
    ensures OwesListing(next.log, StepKey(ts), x)
  {
    hide Sound, LegalRun, Calm, Takes, Consistent, Accounts, LegalWrite, RecordsNew, OwesMessage, OwesListing;
    SoundEnds(r);
    var stored := ResultMessage(ts.leaf, c);
    var d1 := WithMessage(d, x, stored);
    var t := State(Process.Finished(ts.(leaf := x)), d1, issued + {x});
    ResultStep(d, ts, c, x, issued);
    MessageWriteLegal(d, x, stored);
    OwedMessageAccounts(r.log, StepKey(ts), x, stored);
    StepAny(r, SavingResult, Event(Wrote, d1), t);
    next := After(r, Event(Wrote, d1), t);
    assert r.turns + TurnId(d1) == r.turns;
  }

  /** The tool ends, and its result is saved and listed. */
  lemma ResultSaved(r: Trace, d: Disk, ts: TurnState, c: string, issued: set<string>, x: string)
    returns (next: Trace, d1: Disk)
    requires Good(r) && r.now == State(Awaiting(ts, c), d, issued) && !r.calm
    requires ts.leaf in d.messages && x != "" && x !in d.messages && x !in issued
    ensures var d' := Resulted(d, StepKey(ts), ts.leaf, x, c); Good(next) && next == r.(
      log := r.log + [Event(Returned(StepKey(ts), ResultPart(c)), d)] + [Event(Wrote, d1)] + [Event(Wrote, d')],
      now := State(Process.Finished(ts.(leaf := x)), d', issued + {x}))
  {
    hide Sound, LegalRun, Calm, Takes, Distinct, Consistent, ChildFree, Grounded, Accounts, OwesMessage, OwesListing;
    GoodEnds(r);
    var k, stored, d' := StepKey(ts), ResultMessage(ts.leaf, c), Resulted(d, StepKey(ts), ts.leaf, x, c);
    d1 := WithMessage(d, x, stored);
    next := ToolReturned(r, d, ts, c, issued);
    next := ResultWritten(next, d, ts, c, issued, x);
    SoundEnds(next);
    ListResultStep(d1, d', ts.(leaf := x), issued + {x});
    FreshIsListable(d, ts.leaf, x, stored);
    OwedListingAccounts(next.log, k, x);
    var log := next.log;
    next := WriteListed(next, ListingResult, State(Process.Finished(ts.(leaf := x)), d', issued + {x}), k, x);
    assert next.log[..|log|] == log;
    ListedIsSettled(log, k, x, next.log);
  }

  /** The turns that had a record in the log. */
  ghost function TurnsOf(log: seq<Event>): (turns: set<string>)
    ensures TurnsIn(log, turns)
  {
    set j | 0 <= j < |log| && log[j].disk.turn.Some? :: log[j].disk.turn.value.id
  }

  lemma StartsAt(log: seq<Event>, d: Disk, issued: set<string>) returns (r: Trace)
    requires LegalRun(log) && log != [] && log[|log| - 1].disk == d
    ensures Sound(r) && r == Trace(State(Down, d, issued), |log|, log, State(Down, d, issued), TurnsOf(log), false)
  {
    hide LegalRun, Consistent;
    DiskConsistent(log, |log| - 1);
    assert log[|log|..] == [];
    assert d.turn.Some? ==> d.turn.value.id in TurnsOf(log);
    r := Trace(State(Down, d, issued), |log|, log, State(Down, d, issued), TurnsOf(log), false);
  }

  /** The tool is continued, its result saved and listed, and the process dies. */
  lemma DiedAfterResult(r: Trace, d: Disk, issued: set<string>, s: string, x: string)
    returns (next: Trace, e1: Disk, e2: Disk)
    requires Good(r) && r.now == State(Down, d, issued) && !r.calm && !Calm(r.log) && Answerable(d)
    requires ContinuedCall(d) == AskedBy(d)
    requires s != "" && x != "" && s != x && forall id :: id == s || id == x ==> id !in d.messages && id !in issued
    ensures var k, c, d1 := StepKey(d.turn.value), AskedBy(d), Responded(d, s); var d2 := Resulted(d1, k, s, x, c);
      && Good(next) && !Calm(next.log) && StillAsking(d, d2) && Answered(d2, k) == Answered(d, k) + {c}
      && d2.messages.Keys == d.messages.Keys + {s, x} && x in EventsOf(d2, k) && !OnRecordChain(d2, x)
      && d1.turn == d.turn
      && next == r.(
           log := r.log + [Event(Wrote, e1)] + [Event(Wrote, d1)] + [Event(ContinueWith(d, k), d1)] +
                  [Event(Returned(k, ResultPart(c)), d1)] + [Event(Wrote, e2)] + [Event(Wrote, d2)] + [Event(Interrupted, d2)],
           now := State(Down, d2, issued + {s} + {x}))
  {
    hide Good, LegalRun, Calm, Takes, Distinct, Consistent, LegalEvent, CallsMatch, Answered, Responded, Resulted,
      OnRecordChain, ContinuedCall, Sound, ResultPart, WithToolEvent, AskedBy;
    var k, c := StepKey(d.turn.value), AskedBy(d);
    next, e1 := ContinuedOnce(r, d, issued, s);
    var d1 := Responded(d, s);
    GoodEnds(next);
    ResponseKeeps(d, s);
    ResultKeeps(d1, k, s, x, c);
    next, e2 := ResultSaved(next, d1, d.turn.value.(leaf := s), c, issued + {s}, x);
    next := Died(next);
  }

  /** Wherever an answered turn waits for the result of its call, the next process may
      die between that result and the record of it. The next one finds the record
      still waiting and continues the finished call again; the event index lists
      the first result, the history that goes on does not have it. */
  lemma AnsweredTwice(log: seq<Event>, d: Disk, issued: set<string>, s: string, x: string, t: string)
    returns (longer: seq<Event>, now: State)
    requires LegalRun(log) && log != [] && log[|log| - 1].disk == d && Answerable(d)
    requires Records(d.results[StepKey(d.turn.value)], AskedBy(d)) && AskedBy(d) !in Answered(d, StepKey(d.turn.value))
    requires s != "" && x != "" && t != "" && s != x && s != t && x != t
    requires forall id :: id == s || id == x || id == t ==> id !in d.messages && id !in issued
    ensures LegalRun(longer) && log <= longer && Steps(State(Down, d, issued), longer[|log|..], now)
    ensures ContinuedAgain(longer, |log| + 1, StepKey(d.turn.value), AskedBy(d), x)
  {
    hide Good, LegalRun, Calm, Takes, Steps, Distinct, Consistent, LegalEvent, CallsMatch, Answered, Records, Responded,
      Resulted, OnRecordChain, ContinuedAgain, ContinuedCall, Sound, ResultPart, WithToolEvent, AskedBy;
    var k, c := StepKey(d.turn.value), AskedBy(d);
    var r := StartsAt(log, d, issued);
    r := Died(r);
    RecordedIsContinued(d);
    var e1, e2, e3;
    r, e1, e2 := DiedAfterResult(r, d, issued, s, x);
    var d1 := Responded(d, s);
    var d2 := Resulted(d1, k, s, x, c);
    r, e3 := ContinuedOnce(r, d2, issued + {s} + {x}, t);
    TenEvents(log + [Event(Interrupted, d)], r.log, e1, d1, e2, d2, e3, Responded(d2, t), ContinueWith(d, k), k, c, x);
    Ran(r);
    longer, now := r.log, r.now;
  }

  lemma RecordedIsContinued(d: Disk)
    requires Answerable(d) && Records(d.results[StepKey(d.turn.value)], AskedBy(d))
    ensures ContinuedCall(d) == AskedBy(d)
  {
  }

  lemma DeathStep(now: State)
    ensures Takes(Dying, now, Event(Interrupted, now.disk), State(Down, now.disk, now.issued))
  {
  }

  lemma NoLongerCalm(log: seq<Event>, i: nat)
    requires i < |log| && log[i].action == Interrupted
    ensures !Calm(log)
  {
  }

  /** Whatever a process was doing, its death ends it. */
  lemma Died(r: Trace) returns (next: Trace)
    requires (Good(r) || Sound(r)) && !r.calm
    ensures Good(next) && !Calm(next.log)
    ensures next == r.(log := r.log + [Event(Interrupted, r.now.disk)], now := State(Down, r.now.disk, r.now.issued))
  {
    hide Sound, LegalRun, Calm, Takes, Consistent, LegalEvent, Accounts;
    SoundEnds(r);
    var e, t := Event(Interrupted, r.now.disk), State(Down, r.now.disk, r.now.issued);
    ErrorLegal(r.log, r.now.disk);
    DeathStep(r.now);
    InterruptAccounts(r.log, r.now.disk);
    StepAny(r, Dying, e, t);
    next := After(r, e, t);
    assert r.turns + TurnId(t.disk) == r.turns;
    NoLongerCalm(next.log, |r.log|);
  }

  lemma ResponseKeeps(d: Disk, s: string)
    requires Answerable(d)
    ensures Responded(d, s).messages.Keys == d.messages.Keys + {s}
  {
  }

  lemma ResultKeeps(d: Disk, k: Key, s: string, x: string, c: string)
    requires Consistent(d) && Answerable(d) && s in d.messages && x != "" && x !in d.messages
    ensures var d' := Resulted(d, k, s, x, c);
      && StillAsking(d, d') && Answered(d', k) == Answered(d, k) + {c} && d'.messages.Keys == d.messages.Keys + {x}
      && x in EventsOf(d', k) && !OnRecordChain(d', x)
  {
    hide Grounded, Answered, OnRecordChain, StillAsking;
    var stored, d' := ResultMessage(s, c), Resulted(d, k, s, x, c);
    StillAnswerable(d, k, x, stored);
    assert ResultIds(stored.msg) == {c} by { assert stored.msg.parts[0] in stored.msg.parts; }
    FreshIsListable(d, s, x, stored);
    ChildFreeIsOff(d', x);
    var listed := EventsOf(d', k);
    assert listed[|listed| - 1] == x;
  }

  lemma TenEvents(
    log: seq<Event>, longer: seq<Event>, e1: Disk, d1: Disk, e2: Disk, d2: Disk, e3: Disk, d3: Disk,
    a: Action, k: Key, c: string, x: string)
    requires Continues(a, k, c) && longer ==
      log + [Event(Wrote, e1)] + [Event(Wrote, d1)] + [Event(a, d1)] +
      [Event(Returned(k, ResultPart(c)), d1)] + [Event(Wrote, e2)] + [Event(Wrote, d2)] +
      [Event(Interrupted, d2)] + [Event(Wrote, e3)] + [Event(Wrote, d3)] + [Event(a, d3)]
    requires d1.turn == d2.turn == d3.turn
    requires c in Answered(d2, k) && x in EventsOf(d2, k) && !OnRecordChain(d2, x)
    ensures ContinuedAgain(longer, |log|, k, c, x) && log <= longer
  {
    hide Answered, OnRecordChain;
  }

  /** There are runs that do so, from an empty thread on. */
  lemma AnsweredTwiceHappens() returns (log: seq<Event>, n: nat, now: State)
    ensures LegalRun(log) && log != [] && Steps(NOBODY, log[1..], now)
    ensures ContinuedAgain(log, n, STEP, "c", "x")
  {
    hide Good, LegalRun, Steps, Calm, Consistent, ContinuedAgain, Paused, Answerable, AskedBy, Records, Answered,
      Distinct, ContinuedCall;
    var r := Pausing(false);
    PausedFacts(false);
    Ran(r);
    GoodEnds(r);
    log, now := AnsweredTwice(r.log, Paused(false), {"t", "u", "a", "q", "r"}, "s", "x", "y");
    n := |r.log| + 1;
    GoesOn(NOBODY, r.log, r.now, log, now);
  }

  lemma GoesOn(s: State, log: seq<Event>, mid: State, longer: seq<Event>, t: State)
    requires log != [] && log <= longer && Steps(s, log[1..], mid) && Steps(mid, longer[|log|..], t)
    ensures longer != [] && Steps(s, longer[1..], t)
  {
    hide Steps;
    StepsJoin(s, log[1..], mid, longer[|log|..], t);
    assert longer[1..] == log[1..] + longer[|log|..];
  }

  // ----- When a question is continued again

  /** The legal run `longer` goes on where `log` ends and continues a tool that
      waits for the answer to `q`. */
  ghost predicate ContinuesAgain(log: seq<Event>, longer: seq<Event>, q: AskKey) {
    && LegalRun(longer) && log <= longer
    && exists j :: |log| <= j < |longer| && longer[j].action.Continued? && WaitsFor(longer[j].disk, q)
  }

  /** After the tool that asked a question was continued, it can be continued for
      the same answer again if and only if the turn record still waits for it; and
      then the next process does so by its own steps. */
  lemma ContinuesAgainExactly(log: seq<Event>, i: nat, q: AskKey)
    requires LegalRun(log) && i < |log| && log[i].action.Continued? && WaitsFor(log[i].disk, q) && q.approvalId != ""
    ensures var d := log[|log| - 1].disk;
      && ((exists longer: seq<Event> :: ContinuesAgain(log, longer, q)) <==> WaitsFor(d, q))
      && (WaitsFor(d, q) ==> exists longer: seq<Event>, now: State :: (
            ContinuesAgain(log, longer, q) && Steps(State(Down, d, d.messages.Keys), longer[|log|..], now)))
  {
    hide LegalRun, Steps, WaitsFor;
    var d := log[|log| - 1].disk;
    forall longer: seq<Event> | ContinuesAgain(log, longer, q)
      ensures WaitsFor(d, q)
    {
      var j :| |log| <= j < |longer| && longer[j].action.Continued? && WaitsFor(longer[j].disk, q);
      WaitedBetween(log, i, longer, j, q);
    }
    if WaitsFor(d, q) {
      StillAnswered(log, i, q);
      var longer, now := CanContinue(log, d, q);
      assert ContinuesAgain(log, longer, q) && Steps(State(Down, d, d.messages.Keys), longer[|log|..], now);
    }
  }

  lemma WaitedBetween(log: seq<Event>, i: nat, longer: seq<Event>, j: nat, q: AskKey)
    requires LegalRun(longer) && log <= longer && i < |log| <= j < |longer| && q.approvalId != ""
    requires log[i].action.Continued? && WaitsFor(log[i].disk, q)
    requires longer[j].action.Continued? && WaitsFor(longer[j].disk, q)
    ensures WaitsFor(log[|log| - 1].disk, q)
  {
    hide LegalRun, WaitsFor;
    FirstEvent(longer);
    SecondContinuation(longer, i, j, q);
    assert longer[|log| - 1] == log[|log| - 1];
  }

  /** An answer stays, and a record that waits for it can be resumed. */
  lemma StillAnswered(log: seq<Event>, i: nat, q: AskKey)
    requires LegalRun(log) && i < |log| && log[i].action.Continued? && WaitsFor(log[i].disk, q) && q.approvalId != ""
    requires WaitsFor(log[|log| - 1].disk, q)
    ensures Answerable(log[|log| - 1].disk)
  {
    hide LegalRun, Grounded;
    FirstEvent(log);
    AnswerReachesItsTool(log, i);
    RunExtends(log, i, |log| - 1);
    DiskConsistent(log, |log| - 1);
  }

  lemma CanContinue(log: seq<Event>, d: Disk, q: AskKey) returns (longer: seq<Event>, now: State)
    requires LegalRun(log) && log != [] && log[|log| - 1].disk == d && Answerable(d) && WaitsFor(d, q)
    ensures ContinuesAgain(log, longer, q) && Steps(State(Down, d, d.messages.Keys), longer[|log|..], now)
  {
    hide Good, Sound, LegalRun, Calm, Takes, Steps, Distinct, Consistent, LegalEvent, CallsMatch, Answered, ContinuedCall,
      WithToolEvent, Responded, AskedBy;
    var issued := d.messages.Keys;
    var r := StartsAt(log, d, issued);
    r := Died(r);
    var s := Longer(issued);
    var d1;
    r, d1 := ContinuedOnce(r, d, issued, s);
    Ran(r);
    longer, now := r.log, r.now;
    assert longer[|log| + 3].action.Continued? && WaitsFor(longer[|log| + 3].disk, q);
  }

  // ----- A reply that loses its calls

  const TEXT := TextPart("x", "", "")
  const PARTIAL := Plain(Assistant, [TEXT])

  lemma TextMeans()
    ensures StreamParts([TextStart("x")], [TEXT]) && ContentParts([TEXT]) == [TEXT]
  {
    var chunks := [TextStart("x")];
    assert chunks[..0] == [] && chunks[0] == TextStart("x");
    assert Accumulate(INITIAL, chunks).parts == [TEXT];
    var parts: seq<Part> := [TEXT];
    assert parts[..0] == [] && parts[0] == TEXT;
  }

  /** The turn on disk once its first stream broke off after some text. */
  function Broken(): Disk {
    var begun := OPENED.(chunks := OPENED.chunks[STEP := [TextStart("x")]]);
    WithMessage(begun, "a", Stored("u", "", PARTIAL))
  }

  /** The first stream breaks off recoverably; its text is kept under the message
      ID of the turn and the model is asked again. */
  lemma StreamBroken() returns (r: Trace)
    ensures Came(r, State(Calling(BEGUN, "b", true), Broken(), {"t", "u", "a", "b"}), true)
  {
    hide Good, LegalRun, Calm, Takes, Consistent, StreamParts, ContentParts;
    var issued, own := {"t", "u", "a"}, Receiving(BEGUN, "a", false, true);
    r := Opened();
    r := ModelAsked(r, "a", false, OPENED, issued);
    r := Appended(r, own, OPENED, issued, [], TextStart("x"));
    var begun := OPENED.(chunks := OPENED.chunks[STEP := [TextStart("x")]]);
    assert [] + [TextStart("x")] == [TextStart("x")];
    TextMeans();
    PartialStep(begun);
    r := WriteMessage(r, SavingPartial(PARTIAL, [TEXT]), State(Calling(BEGUN, "b", true), Broken(), issued + {"b"}),
      "a", Stored("u", "", PARTIAL));
    assert issued + {"b"} == {"t", "u", "a", "b"};
  }

  lemma PartialStep(begun: Disk)
    requires begun == OPENED.(chunks := OPENED.chunks[STEP := [TextStart("x")]])
    requires StreamParts([TextStart("x")], [TEXT]) && ContentParts([TEXT]) == [TEXT]
    ensures var issued := {"t", "u", "a"}; Takes(SavingPartial(PARTIAL, [TEXT]),
      State(Receiving(BEGUN, "a", false, true), begun, issued), Event(Wrote, Broken()),
      State(Calling(BEGUN, "b", true), Broken(), issued + {"b"}))
  {
    hide StreamParts, ContentParts;
  }

  /** The retry streams a whole reply with a call before it fails, the next process
      reads that reply back under the message ID of the turn. */
  function Reread(): Disk {
    Broken().(chunks := Broken().chunks[STEP := CHUNKS], results := Broken().results[STEP := Reply(true)])
  }

  function Adopted(): Disk {
    WithAssistantId(Reread(), STEP, "a")
  }

  const LAST := BEGUN.(leaf := "a")

  /** A process may lose the calls of a complete reply in an undisturbed run: the
      text kept under its message ID is adopted in its place, the turn is over, and
      the call was not run. */
  lemma CallsDropped() returns (log: seq<Event>, now: State)
    ensures LegalRun(log) && Calm(log) && log != [] && Steps(NOBODY, log[1..], now)
    ensures now.proc == Down && now.disk.turn == None && STEP in now.disk.results
    ensures CallIds(now.disk.results[STEP].assistant) == {"c"} && CallIds(StepMessage(now.disk, STEP)) == {}
    ensures Answered(now.disk, STEP) == {}
  {
    hide Good, LegalRun, Calm, Takes, Steps, Consistent, Distinct, TurnConsistent, TurnMoves, CallIds, StepMessage,
      NamedRightly, LegalEvent;
    var issued := {"t", "u", "a", "b"};
    var r := StreamBroken();
    r := Streamed(r, "b", true, Broken(), issued);
    r := Ended(r, Broken().(chunks := Broken().chunks[STEP := CHUNKS]), "b", true, issued, true);
    DroppedFacts();
    r := Used(r, Reread(), issued);
    AdoptStep(issued);
    r := WriteResult(r, Adopting, State(Settled(LAST), Adopted(), issued), STEP, Reply(true).(assistantId := "a"));
    GoodEnds(r);
    var left := Adopted().(turn := Some(LAST));
    LastStep(left, issued);
    RemoveStep(left, issued);
    SameResults(Adopted(), left);
    SameResults(Adopted(), left.(turn := None));
    r := WriteTurn(r, SavingLastRecord, State(Leaving(LAST), left, issued));
    assert {"t"} + {"t"} == {"t"};
    r := WriteTurn(r, RemovingRecord, State(Down, left.(turn := None), issued));
    Ran(r);
    OverFacts();
    log, now := r.log, r.now;
  }

  lemma OverFacts()
    ensures var d := Adopted().(turn := Some(LAST)).(turn := None);
      && CallIds(d.results[STEP].assistant) == {"c"} && CallIds(StepMessage(d, STEP)) == {}
      && Answered(d, STEP) == {}
  {
    hide Distinct, CallIds;
    DroppedFacts();
  }

  lemma DroppedFacts()
    ensures Reread().turn == Some(BEGUN) && Distinct(Reread()) && Distinct(Adopted())
    ensures NamedRightly(Reread(), STEP, Reply(true).(assistantId := "a"))
    ensures CallIds(Adopted().results[STEP].assistant) == {"c"} && CallIds(StepMessage(Adopted(), STEP)) == {}
  {
    hide Distinct;
    RepliesAreDistinct(Reread());
    RepliesAreDistinct(Adopted());
    ReplyCalls(Adopted().results[STEP].assistant);
    assert StepMessage(Adopted(), STEP) == PARTIAL;
  }

  lemma AdoptStep(issued: set<string>)
    ensures Takes(Adopting, State(Placing(BEGUN), Reread(), issued), Event(Wrote, Adopted()),
      State(Settled(LAST), Adopted(), issued))
  {
  }

  lemma LastStep(left: Disk, issued: set<string>)
    requires left == Adopted().(turn := Some(LAST))
    ensures Takes(SavingLastRecord,
      State(Settled(LAST), Adopted(), issued), Event(Wrote, left), State(Leaving(LAST), left, issued))
    ensures TurnConsistent(Adopted(), LAST) && TurnMoves(Adopted(), BEGUN, LAST) && Adopted().turn == Some(BEGUN)
  {
    hide CallIds, Distinct, NamedRightly;
    DroppedFacts();
  }

  lemma RemoveStep(left: Disk, issued: set<string>)
    ensures Takes(RemovingRecord, State(Leaving(LAST), left, issued), Event(Wrote, left.(turn := None)),
      State(Down, left.(turn := None), issued))
  {
  }
}
