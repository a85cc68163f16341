/** The crash-resilient turn loop: four phase functions over one store. */
module TurnLoop {
  import opened Messages
  import opened ToolClosure
  import opened Accumulator
  import opened ThreadStore
  import opened RunLog
  import opened Store
  import opened StepWork
  import opened ToolAnswers
  import opened StepCalls

  datatype Flow = LoopContinue | LoopDone | LoopStop | LoopDied

  /** A write that did not happen ends the loop. */
  function FlowOf(o: Outcome): Flow {
    if o == Died then LoopDied else LoopStop
  }

  /** How a provider stream broke off, if it did. */
  datatype ProviderError = ContextLength | PartialResponse | OtherError

  /** What one completion left behind. */
  datatype Completion = ReplyOnDisk | Broken(error: ProviderError) | ProcessDied

  /** The reply on disk is what the step file means. */
  ghost predicate IsStreamed(d: Disk, k: Key) {
    k in d.results && k in d.chunks && StreamParts(d.chunks[k], d.results[k].assistant.parts)
  }

  /** The reply on disk is what the step file means, or has no calls to run. */
  ghost predicate FromStream(d: Disk, k: Key) {
    k in d.results && (CallIds(d.results[k].assistant) == {} || IsStreamed(d, k))
  }

  lemma ContentHasNoCalls(parts: seq<Part>)
    ensures forall m: Message :: m.parts == ContentParts(parts) ==> CallIds(m) == {}
  {
  }

  /** The state that executeLoop may be entered or continued in. */
  ghost predicate PhaseReady(d: Disk, ts: TurnState, ids: seq<string>, calm: bool, hs: seq<Handle>) {
    match ts.phase
    case Streaming => StreamReady(d, ts, ids, calm)
    case Tools => AtStep(d, ts, ids, calm)
    case WaitingForAsync => AtStep(d, ts, ids, calm) && (calm ==> HandlesReady(d, StepKey(ts), hs))
    case WaitingForAnswer => Asking(d, ts, ids, calm) && hs == []
  }

  /** The turn waits for an answer that has not been given. */
  predicate Asleep(d: Disk, ts: TurnState) {
    ts.phase == WaitingForAnswer && AskKey(ts.id, ts.pending) !in d.answers
  }

  /** How executeLoop ends well: asleep on a question, on a reply without tool
      calls, or cancelled. */
  ghost predicate LoopEnded(d: Disk, ts: TurnState, ids: seq<string>, calm: bool, cancelled: bool) {
    || Asking(d, ts, ids, calm)
    || StepEnded(d, ts, ids, calm)
    || (cancelled && StepCancelled(d, ts, ids, calm))
  }

  /** How an error stops the loop with every write done: before the model has
      answered, or while an answered tool is continued. In the second case the
      record on disk still waits for the question, and the call is open. */
  ghost predicate Stopped(d: Disk, ts: TurnState, ids: seq<string>, calm: bool) {
    calm ==> StreamReady(d, ts, ids, true) || StoppedAnswering(d, ts, ids)
  }

  ghost predicate StoppedAnswering(d: Disk, ts: TurnState, ids: seq<string>) {
    && ts.phase == WaitingForAnswer && AtStep(d, ts, ids, true) && Unresolved(d, StepKey(ts)) != {}
    && d.turn.Some? && exists was :: Asking(d, d.turn.value, was, true)
  }

  lemma NextStepReady(d: Disk, k: Key, ts: TurnState, ids: seq<string>, calm: bool, hs: seq<Handle>)
    requires AtNextStep(d, k, ts, ids, calm)
    ensures PhaseReady(d, ts, ids, calm, hs)
  {
    CalmStartOpens(d, ts, ids, calm);
    StartIsReady(d, ts, ids, calm);
  }

  lemma ToolsLeftReady(d: Disk, k: Key, ts: TurnState, ids: seq<string>, calm: bool, hs: seq<Handle>)
    requires ToolsPhaseLeft(d, k, ts, ids, calm, hs)
    ensures PhaseReady(d, ts, ids, calm, hs)
  {
    hide AtNextStep, AtStart, AtStep, HandlesOpen;
    if AtNextStep(d, k, ts, ids, calm) {
      NextStepReady(d, k, ts, ids, calm, hs);
    }
  }

  lemma BackReady(d: Disk, k: Key, ts: TurnState, ids: seq<string>, calm: bool, hs: seq<Handle>)
    requires BackAtWork(d, k, ts, ids, calm, hs)
    ensures PhaseReady(d, ts, ids, calm, hs)
  {
    hide AtStep, HandlesOpen;
  }

  lemma ReadyIsSavable(d: Disk, ts: TurnState, ids: seq<string>, calm: bool, hs: seq<Handle>)
    requires PhaseReady(d, ts, ids, calm, hs)
    ensures Savable(d, ts, ids)
  {
  }

  /** Undisturbed, a turn that did not fall asleep ends on a tool-closed history. */
  lemma EndedIsClosed(d: Disk, ts: TurnState, ids: seq<string>, cancelled: bool)
    requires LoopEnded(d, ts, ids, true, cancelled) && ts.phase != WaitingForAnswer
    ensures ClosedAt(d, ts.leaf)
  {
    assert IsChain(d.messages, ts.leaf, ids) && ChainPending(d.messages, ids, {});
  }

  /** The response to a question leaves the record that waits for it as it was. */
  lemma ResponseKeepsRecord(d: Disk, ts: TurnState, ids: seq<string>, id: string, response: Part)
    requires Consistent(d) && Asking(d, ts, ids, true) && id != "" && id !in d.messages && !response.ToolResultPart?
    ensures Asking(WithToolEvent(d, StepKey(ts), id, Stored(ts.leaf, "", Plain(Tool, [response]))), ts, ids, true)
  {
    hide Grounded, Answered, CallIds, KnownContinuations, CallsRecorded;
    var k, stored := StepKey(ts), Stored(ts.leaf, "", Plain(Tool, [response]));
    var d' := WithToolEvent(d, k, id, stored);
    EventsExist(d, k);
    assert ResultIds(stored.msg) == {};
    ToolEventKeepsStep(d, k, id, stored);
    ChainKept(d.messages, d'.messages, ts.leaf, ids);
    assert Savable(d', ts, ids);
    assert Unresolved(d', k) == Unresolved(d, k);
    assert CalmStep(d', ids, ts.leaf, k);
  }

  /** What an undisturbed run may continue a tool with. */
  lemma ContinuedIsLegal(d: Disk, ts: TurnState, ids: seq<string>, callId: string)
    requires AtStep(d, ts, ids, true) && OpenCall(d, StepKey(ts), callId)
    ensures callId in KnownIds(d, StepKey(ts))
    ensures CallsMatch(d.results[StepKey(ts)]) ==> d.results[StepKey(ts)].calls != [] && callId !in Answered(d, StepKey(ts))
  {
    hide Savable, ChainPending, FutureClean, AsyncKnown, ChildrenQuiet, Answered;
    var r := d.results[StepKey(ts)];
    CallIdsAreCalls(StepMessage(d, StepKey(ts)));
    var c :| c in Unresolved(d, StepKey(ts));
  }

  /** Once the call that was continued has a result, no async work of the step
      is without a call or a result. */
  lemma StraysAnswered(d: Disk, ts: TurnState, ids: seq<string>)
    requires AtStep(d, ts, ids, true) && (d.results[StepKey(ts)].calls == [] ==> "" in Answered(d, StepKey(ts)))
    ensures StrayAnswered(d, StepKey(ts)) && HandlesReady(d, StepKey(ts), [])
  {
    hide Savable, ChainPending, FutureClean, ChildrenQuiet, Answered, StepMessage, CallIds;
    NoHandles(d, StepKey(ts));
  }

  lemma RecordKeepsHandles(d: Disk, t: Option<TurnState>, k: Key, hs: seq<Handle>)
    requires k in d.results && HandlesReady(d, k, hs)
    ensures HandlesReady(d.(turn := t), k, hs)
  {
    hide CallIds, AnsweredBy;
    var d' := d.(turn := t);
    assert EventsOf(d', k) == EventsOf(d, k) && AsyncOf(d', k) == AsyncOf(d, k);
    assert StepMessage(d', k) == StepMessage(d, k) && Unresolved(d', k) == Unresolved(d, k);
  }

  /** The tool that was to be continued reported an error. */
  lemma StoppedWhileAnswering(d: Disk, ts: TurnState, ids: seq<string>, calm: bool, callId: string, was: seq<string>)
    requires AtStep(d, ts, ids, calm) && ts.phase == WaitingForAnswer && d.turn.Some?
    requires calm ==> OpenCall(d, StepKey(ts), callId) && Asking(d, d.turn.value, was, true)
    ensures Stopped(d, ts, ids, calm)
  {
    hide CalmStep, Asking, Savable;
  }

  lemma NotCalmStops(d: Disk, ts: TurnState, ids: seq<string>)
    ensures Stopped(d, ts, ids, false)
  {
  }

  /** The assistant message of the current step, to be saved under the leaf. */
  function StepMessageUnder(d: Disk, ts: TurnState): Stored
    requires StepKey(ts) in d.results
  {
    var r := d.results[StepKey(ts)];
    Stored(ts.leaf, r.replacesId, WithMetadata(r.assistant, "turn"))
  }

  lemma NothingPending(d: Disk, ts: TurnState, ids: seq<string>)
    requires Savable(d, ts, ids) && ts.phase != WaitingForAnswer
    ensures ts.pending == ""
  {
  }

  /** A new message under the leaf with the content of the reply may name it. */
  lemma NewMayName(d: Disk, ts: TurnState, id: string)
    requires StepKey(ts) in d.results && id != "" && id !in d.messages && "" !in d.messages
    requires d.results[StepKey(ts)].assistant.role == Assistant
    requires d.results[StepKey(ts)].assistant.id == "" || id == d.results[StepKey(ts)].assistant.id
    ensures var d' := WithMessage(d, id, StepMessageUnder(d, ts));
      MayName(d', StepKey(ts), id) && (IdFree(d', StepKey(ts)) <==> IdFree(d, StepKey(ts)))
  {
  }

  /** So may the message under the reply's own ID, if it is below the leaf. */
  lemma AdoptedMayName(d: Disk, ts: TurnState, ids: seq<string>, id: string)
    requires AtResult(d, ts, ids, false) && id in d.messages && id == d.results[StepKey(ts)].assistant.id
    requires d.messages[id].parent == ts.leaf && d.messages[id].msg.role == Assistant
    ensures MayName(d, StepKey(ts), id)
  {
  }

  lemma UnnamedMessage(d: Disk, k: Key)
    requires k in d.results && d.results[k].assistantId == "" && "" !in d.messages
    ensures StepMessage(d, k) == d.results[k].assistant && Unnamed(d, k)
  {
  }

  lemma NewReplySaved(d: Disk, ts: TurnState, ids: seq<string>, calm: bool, id: string)
    requires Grounded(d.messages) && AtResult(d, ts, ids, calm) && id != "" && id !in d.messages
    requires StepKey(ts) in d.results && d.results[StepKey(ts)].assistantId == ""
    requires d.results[StepKey(ts)].assistant.role == Assistant
    ensures var d1, ts' := WithMessage(d, id, StepMessageUnder(d, ts)), WithAssistant(ts, id);
      && Savable(d1, ts', ids + [id])
      && AtReply(WithAssistantId(d1, StepKey(ts), id), ts', ids + [id], calm)
      && AtReply(WithAssistantId(d1, StepKey(ts), id), ts', ids + [id], false)
  {
    hide AtResult, AtReply, Savable, Grounded, CalmStep, CallIds, StepMessage, Unresolved, Answered, WithAssistantId;
    AssistantSaved(d, ts, ids, calm, id, StepMessageUnder(d, ts));
    AtReplyFacts(WithAssistantId(WithMessage(d, id, StepMessageUnder(d, ts)), StepKey(ts), id), WithAssistant(ts, id), ids + [id], calm);
  }

  /** The message is beside the history: a child of `leaf`, unless its ID was taken. */
  predicate KeptBeside(d: Disk, d': Disk, leaf: string, id: string, msg: Message) {
    d' == if id in d.messages then d else WithMessage(d, id, Stored(leaf, "", msg))
  }

  /** Whatever the event index of step `k` lists since is an error result with this text. */
  ghost predicate ErrorsListed(d: Disk, d': Disk, k: Key, text: string) {
    && EventsOf(d, k) <= EventsOf(d', k)
    && forall i :: |EventsOf(d, k)| <= i < |EventsOf(d', k)| ==> ListsError(d'.messages, EventsOf(d', k)[i], text)
  }

  ghost predicate ListsError(m: map<string, Stored>, id: string, text: string) {
    id in m && exists callId, toolName, p :: Carries(p, ErrorResult(callId, toolName, text)) && m[id].msg == Plain(Tool, [p])
  }

  lemma NoneListed(d: Disk, k: Key, text: string)
    ensures ErrorsListed(d, d, k, text)
  {
  }

  lemma RecordListsNothing(d: Disk, d': Disk, turn: Option<TurnState>, k: Key, text: string)
    requires ErrorsListed(d, d', k, text)
    ensures ErrorsListed(d, d'.(turn := turn), k, text)
  {
    hide Carries, ErrorResult;
  }

  /** One more error result, or a write of it that failed. */
  lemma ErrorListed(
    d0: Disk, d: Disk, d': Disk, ts: TurnState, ts': TurnState, callId: string, toolName: string, text: string, p: Part,
    written: bool)
    requires ErrorsListed(d0, d, StepKey(ts), text) && Worked(d, ts, d', ts')
    requires Carries(p, ErrorResult(callId, toolName, text))
    requires if written then d' == WithResult(d, ts, ts'.leaf, p) else EventsOf(d', StepKey(ts)) == EventsOf(d, StepKey(ts))
    ensures ErrorsListed(d0, d', StepKey(ts), text)
  {
    hide Carries, ErrorResult;
    var k := StepKey(ts);
    forall i | |EventsOf(d0, k)| <= i < |EventsOf(d', k)|
      ensures ListsError(d'.messages, EventsOf(d', k)[i], text)
    {
      if i < |EventsOf(d, k)| {
        assert ListsError(d.messages, EventsOf(d, k)[i], text);
      } else {
        assert d'.messages[EventsOf(d', k)[i]].msg == Plain(Tool, [p]);
      }
    }
  }

  lemma OnlyMessageSaved(d: Disk, id: string, stored: Stored)
    ensures WithMessage(d, id, stored).results == d.results
  {
  }

  /** What the model is told about a changed tool list. */
  function ToolsChanged(): (m: Message)
    ensures m.role == User
  {
    Plain(User, [TextPart("", "tools changed", "")]).(synthetic := true)
  }

  /** What recordCommunicatedCredentialResult tries to read. */
  predicate GrantsCredentials(result: Part) {
    && result.ToolResultPart? && result.toolName == "RequestUserCredential"
    && result.output.JsonOutput? && result.output.value != ""
  }

  lemma LeafOnDisk(m: map<string, Stored>, leaf: string, ids: seq<string>)
    requires IsChain(m, leaf, ids)
    ensures leaf == "" || leaf in m
  {
  }

  /** The turn's disk with one more result: a tool message under the leaf, listed last. */
  function WithResult(d: Disk, ts: TurnState, id: string, p: Part): Disk {
    WithToolEvent(d, StepKey(ts), id, Stored(ts.leaf, "", Plain(Tool, [p])))
  }

  class LoopContext {
    const store: ThreadDir
    var ts: TurnState
    /** How many steps the turn may take, 0 for any number, and what the model is told
        after the last of them. */
    var maxSteps: nat
    const reminder: Reminder
    var asyncHandles: seq<Handle>
    var cancelled: bool
    /** The parent chain of the turn's current leaf. */
    ghost var chain: seq<string>
    /** How often the provider was called, and what it sent since the last call. */
    ghost var asked: nat
    ghost var sent: seq<Chunk>

    constructor (store: ThreadDir, ts: TurnState, ghost chain: seq<string>)
      ensures this.store == store && this.ts == ts && asyncHandles == [] && !cancelled && this.chain == chain
      ensures reminder == MaxStepsReminder(maxSteps)
    {
      hide MaxStepsReminder;
      var steps: nat := *;
      maxSteps, reminder := steps, MaxStepsReminder(steps);
      this.store, this.ts, asyncHandles, cancelled, this.chain, asked, sent := store, ts, [], false, chain, 0, [];
    }

    // ----- Oracles

    /** lc.ctx.Err(): once cancelled, a context stays cancelled. */
    method ContextErr() returns (b: bool)
      modifies this`cancelled
      ensures b == cancelled && (old(cancelled) ==> cancelled)
    {
      if !cancelled {
        cancelled := *;
      }
      b := cancelled;
    }

    /** Any answer of the executor; a result carries the ID of its call. */
    method Answer(callId: string, mayGoAsync: bool) returns (r: Reply)
      requires store.Valid()
      modifies store`log
      ensures r.Replied? ==> IsResultFor(r.result, callId)
      ensures r.GoesAsync? ==> mayGoAsync
      ensures store.log == old(store.log) + Said(StepKey(ts), callId, r, store.disk)
      ensures store.IsCalm() == old(store.IsCalm())
      ensures if Spoken(r) then store.Sound() else store.Valid()
      ensures Spoken(r) ==> forall toolName, prefix :: store.MayRecord(StepKey(ts), ResultOf(callId, toolName, prefix, r))
    {
      hide LegalRun, Consistent, store.Valid, store.Sound, store.IsCalm, Answers, ResultOf;
      r := *;
      if r.Replied? {
        var toolName: string := *;
        var output: Output := *;
        r := Replied(ToolResultPart(callId, toolName, output));
      }
      if r.GoesAsync? && !mayGoAsync {
        r := Fails(r.payload);
      }
      match r
      case NeedsApproval(_) =>
        store.HearMore(SaidOf(StepKey(ts), callId, r));
      case GoesAsync(_) =>
        store.HearMore(SaidOf(StepKey(ts), callId, r));
      case _ =>
        store.Hear(SaidOf(StepKey(ts), callId, r));
        forall toolName, prefix
          ensures store.MayRecord(StepKey(ts), ResultOf(callId, toolName, prefix, r))
        {
          ResultAnswers(StepKey(ts), callId, toolName, prefix, r);
          ResultIsResult(callId, toolName, prefix, r);
        }
    }

    /** The next chunk of the provider's stream. */
    method NextChunk() returns (chunk: Chunk)
      modifies this`sent
      ensures sent == old(sent) + [chunk]
    {
      chunk := *;
      sent := sent + [chunk];
    }

    /** executor.Execute: only for a call without a persisted result. */
    method Execute(call: Part) returns (r: Reply)
      requires call.ToolCallPart? && store.Valid() && call.callId !in Answered(store.disk, StepKey(ts))
      requires Executable(store.disk, StepKey(ts), call)
      modifies store`log
      ensures r.Replied? ==> IsResultFor(r.result, call.callId)
      ensures store.log ==
        old(store.log) + [Event(Executed(StepKey(ts), call), store.disk)] + Said(StepKey(ts), call.callId, r, store.disk)
      ensures store.IsCalm() ==> old(store.IsCalm())
      ensures if Spoken(r) then store.Sound() else store.Valid()
      ensures Spoken(r) ==>
        forall toolName, prefix :: store.MayRecord(StepKey(ts), ResultOf(call.callId, toolName, prefix, r))
    {
      hide LegalRun, Consistent, Answered, Executable;
      store.Note(Executed(StepKey(ts), call));
      hide *;
      r := Answer(call.callId, true);
    }

    /** executor.Continue of an async call, with what its continuation on disk says. */
    method TakeUp(at: Continuation) returns (r: Reply)
      requires store.Valid() && Resumable(store.disk, StepKey(ts), at.callId, at.payload, at.input)
      modifies store`log
      ensures r.Replied? ==> IsResultFor(r.result, at.callId)
      ensures store.log == old(store.log)
        + [Event(Resumed(StepKey(ts), at.callId, at.payload, at.input), store.disk)]
        + Said(StepKey(ts), at.callId, r, store.disk)
      ensures store.IsCalm() ==> old(store.IsCalm())
      ensures if Spoken(r) then store.Sound() else store.Valid()
      ensures Spoken(r) ==> forall toolName, prefix :: store.MayRecord(StepKey(ts), ResultOf(at.callId, toolName, prefix, r))
    {
      hide LegalRun, Consistent, Resumable;
      store.Note(Resumed(StepKey(ts), at.callId, at.payload, at.input));
      hide *;
      r := Answer(at.callId, true);
    }

    // ----- Writes

    method AppendMessage(msg: Message) returns (o: Outcome)
      requires store.Valid() || exists k :: store.Owes(k, msg)
      requires IsChain(store.disk.messages, ts.leaf, chain)
      modifies this`ts, this`chain, store
      ensures store.turns == old(store.turns) && old(store.log) <= store.log
      ensures old(store.Valid()) || o != Written ==> store.Valid()
      ensures forall k :: old(store.Owes(k, msg)) && o == Written ==> store.Awaits(k, ts.leaf)
      ensures IsChain(store.disk.messages, ts.leaf, chain) && ts == old(ts).(leaf := ts.leaf)
      ensures o == Written || o == Failed || o == Died
      ensures store.IsCalm() ==> old(store.IsCalm()) && o == Written
      ensures o != Written ==> ts == old(ts) && chain == old(chain) && store.disk == old(store.disk)
      ensures o == Written ==> ts.leaf != "" && ts.leaf !in old(store.disk.messages) && chain == old(chain) + [ts.leaf]
      ensures o == Written ==>
        store.disk == WithMessage(old(store.disk), ts.leaf, Stored(old(ts.leaf), "", msg))
    {
      hide LegalRun, Consistent, OwesMessage, OwesListing, Settled, IsChain, Grounded, store.Valid, store.Sound,
        store.IsCalm, store.Awaits;
      store.DiskFacts();
      LeafOnDisk(store.disk.messages, ts.leaf, chain);
      var id := store.FreshId();
      var stored := Stored(ts.leaf, "", msg);
      ghost var before := store.disk.messages;
      o := store.SaveMessage(id, stored);
      if o == Written {
        ChainExtended(before, id, stored, chain);
        ts := ts.(leaf := id);
        chain := chain + [id];
      }
    }

    /** One tool message, saved under the leaf and then listed in the event
        index of the step. */
    method AppendStepToolEvent(parts: seq<Part>) returns (o: Outcome)
      requires (store.Valid() && OwnParts(store.disk, StepKey(ts), parts)) || store.Owes(StepKey(ts), Plain(Tool, parts))
      requires AtStep(store.disk, ts, chain, store.IsCalm())
      requires store.IsCalm() ==> Unresolved(store.disk, StepKey(ts)) != {}
      modifies this`ts, this`chain, store
      ensures store.Valid() && store.turns == old(store.turns) && old(store.log) <= store.log
      ensures AtStep(store.disk, ts, chain, store.IsCalm()) && Worked(old(store.disk), old(ts), store.disk, ts)
      ensures ts == old(ts).(leaf := ts.leaf)
      ensures o == Written || o == Failed || o == Died
      ensures store.IsCalm() ==> old(store.IsCalm()) && o == Written
      ensures o == Written ==>
        && ts.leaf != "" && ts.leaf !in old(store.disk.messages)
        && store.disk == WithToolEvent(old(store.disk), StepKey(ts), ts.leaf, Stored(old(ts.leaf), "", Plain(Tool, parts)))
      ensures Answered(store.disk, StepKey(ts)) ==
        Answered(old(store.disk), StepKey(ts)) + if o == Written then PartResultIds(parts) else {}
      ensures o != Written ==> EventsOf(store.disk, StepKey(ts)) == EventsOf(old(store.disk), StepKey(ts))
    {
      hide LegalRun, Consistent, AtStep, Worked, Answered, OwnParts, OwesMessage, OwesListing, Settled, store.Valid,
        store.IsCalm;
      ghost var d, t, ids, calm := store.disk, ts, chain, store.IsCalm();
      var k := StepKey(ts);
      var msg := Plain(Tool, parts);
      ghost var stored := Stored(t.leaf, "", msg);
      store.DiskFacts();
      assert AtStep(d, t, ids, false) && IsChain(d.messages, t.leaf, ids) by { AtStepFacts(d, t, ids, calm); }
      o := AppendMessage(msg);
      if o != Written {
        WorkedRefl(d, t);
        return;
      }
      ToolMessageSaved(d, t, ids, ts.leaf, stored);
      OwnPartsKept(d, store.disk, k, parts);
      AtStepFacts(store.disk, ts, chain, false);
      FreshIsListable(d, t.leaf, ts.leaf, stored);
      o := store.SaveStepEvents(k, ts.leaf);
      if o == Written {
        ToolEventSaved(d, t, ids, calm, ts.leaf, stored);
        AtStepFacts(store.disk, ts, chain, calm);
      }
    }

    method SaveTurn() returns (o: Outcome)
      requires store.Valid() && Savable(store.disk, ts, chain)
      modifies store`disk, store`log, store`turns
      ensures store.Valid() && store.turns == old(store.turns) && old(store.log) <= store.log
      ensures o == Written || o == Failed || o == Died
      ensures store.IsCalm() ==> old(store.IsCalm()) && o == Written
      ensures store.disk == if o == Written then old(store.disk).(turn := Some(ts)) else old(store.disk)
      ensures Savable(store.disk, ts, chain)
    {
      hide LegalRun, Consistent;
      SavedTurn(store.disk, ts, chain);
      o := store.SaveTurnState(ts);
    }

    /** The first two writes of a pause: the question and the request message. */
    method SaveApproval(callId: string, resumePhase: ResumePhase, continuation: string)
      returns (o: Outcome, approvalId: string)
      requires store.Valid() && AtStep(store.disk, ts, chain, store.IsCalm())
      requires store.IsCalm() ==> OpenCall(store.disk, StepKey(ts), callId)
      modifies this`ts, this`chain, store
      ensures store.Valid() && store.turns == old(store.turns) && old(store.log) <= store.log
      ensures AtStep(store.disk, ts, chain, store.IsCalm())
      ensures o == Written || o == Failed || o == Died
      ensures store.IsCalm() ==> old(store.IsCalm()) && o == Written
      ensures ts == old(ts).(leaf := ts.leaf)
      ensures o == Written ==>
        && AskKey(ts.id, approvalId) !in old(store.disk.questions)
        && AskKey(ts.id, approvalId) !in store.disk.answers && store.disk.results == old(store.disk.results)
        && store.disk.messages == old(store.disk.messages)[
             ts.leaf := Stored(old(ts.leaf), "", Plain(Tool, [ApprovalRequestPart(approvalId, callId)]))]
        && store.disk.questions == old(store.disk.questions)[
             AskKey(ts.id, approvalId) := Question(callId, ts.step, resumePhase, continuation)]
        && Answered(store.disk, StepKey(ts)) == Answered(old(store.disk), StepKey(ts))
        && StepMessage(store.disk, StepKey(ts)) == StepMessage(old(store.disk), StepKey(ts))
    {
      hide LegalRun, Consistent, AtStep, Worked, Answered, Savable, CalmStep, StepMessage, store.Valid, store.IsCalm;
      ghost var d, calm := store.disk, store.IsCalm();
      AtStepFacts(d, ts, chain, calm);
      store.DiskFacts();
      store.AnswersAreToQuestions();
      approvalId := store.FreshId();
      var q, question := AskKey(ts.id, approvalId), Question(callId, ts.step, resumePhase, continuation);
      o := store.SaveQuestion(q, question);
      if o != Written {
        return;
      }
      QuestionSaved(d, ts, chain, calm, q, question);
      AtStepFacts(store.disk, ts, chain, calm);
      ghost var d1, ids := store.disk, chain;
      o := AppendStepToolEvent([ApprovalRequestPart(approvalId, callId)]);
      if o == Written {
        WorkedFacts(d1, old(ts), store.disk, ts, ids);
      }
    }

    /** Persists the question and the request before the turn goes to sleep. */
    method PauseForApproval(callId: string, resumePhase: ResumePhase, continuation: string) returns (f: Flow)
      requires store.Valid() && AtStep(store.disk, ts, chain, store.IsCalm())
      requires store.IsCalm() ==> OpenCall(store.disk, StepKey(ts), callId)
      modifies this`ts, this`chain, store
      ensures store.Valid() && store.turns == old(store.turns) && old(store.log) <= store.log
      ensures Savable(store.disk, ts, chain)
      ensures f == LoopDone || f == LoopStop || f == LoopDied
      ensures store.IsCalm() ==> old(store.IsCalm()) && f == LoopDone
      ensures f == LoopDone ==>
        && Asking(store.disk, ts, chain, store.IsCalm()) && StepKey(ts) == old(StepKey(ts))
        && AskKey(ts.id, ts.pending) in store.disk.questions
        && store.disk.questions[AskKey(ts.id, ts.pending)] == Question(callId, ts.step, resumePhase, continuation)
        && AskKey(ts.id, ts.pending) !in old(store.disk.questions)
        && Answered(store.disk, StepKey(ts)) == Answered(old(store.disk), StepKey(ts))
    {
      hide LegalRun, Consistent, AtStep, Worked, Answered, Savable, CalmStep, StepMessage;
      var o, approvalId := SaveApproval(callId, resumePhase, continuation);
      ghost var d, calm := store.disk, store.IsCalm();
      AtStepFacts(d, ts, chain, calm);
      if o != Written {
        return FlowOf(o);
      }
      PhaseChanged(d, ts, chain, calm, WaitingForAnswer, approvalId);
      ts := ts.(phase := WaitingForAnswer, pending := approvalId);
      AtStepFacts(d, ts, chain, calm);
      o := SaveTurn();
      if o != Written {
        return FlowOf(o);
      }
      SavedAtStep(d, ts, chain, calm);
      AtStepFacts(store.disk, ts, chain, calm);
      f := LoopDone;
    }

    /** prepareToolResultForAppend, then the append. */
    method RecordResult(result: Part, allResults: map<string, Part>, total: nat)
      returns (o: Outcome, all: map<string, Part>)
      requires result.ToolResultPart? && store.MayRecord(StepKey(ts), result)
      requires AtStep(store.disk, ts, chain, store.IsCalm())
      requires store.IsCalm() ==> Unresolved(store.disk, StepKey(ts)) != {}
      modifies this`ts, this`chain, this`maxSteps, store
      ensures store.Valid() && store.turns == old(store.turns) && old(store.log) <= store.log
      ensures AtStep(store.disk, ts, chain, store.IsCalm()) && Worked(old(store.disk), old(ts), store.disk, ts)
      ensures ts == old(ts).(leaf := ts.leaf)
      ensures o == Written || o == Failed || o == Died
      ensures store.IsCalm() ==> old(store.IsCalm()) && o == Written
      ensures all == allResults[result.callId := old(Recorded(result, allResults, total))]
      ensures o == Written ==>
        store.disk == WithResult(old(store.disk), old(ts), ts.leaf, old(Recorded(result, allResults, total)))
      ensures Answered(store.disk, StepKey(ts)) ==
        Answered(old(store.disk), StepKey(ts)) + if o == Written then {result.callId} else {}
      ensures o != Written ==> EventsOf(store.disk, StepKey(ts)) == EventsOf(old(store.disk), StepKey(ts))
    {
      hide LegalRun, Consistent, AtStep, Worked, Answered, CalmStep, Reminded, Carries, Answers, store.Valid,
        store.IsCalm;
      var prepared := Recorded(result, allResults, total);
      PreparedCarries(maxSteps, reminder, ts.step, result, allResults, total);
      store.RecordedAsItIs(StepKey(ts), result, prepared);
      if CompletesLast(maxSteps, ts.step, result.callId, allResults, total) {
        maxSteps := 0;
      }
      all := allResults[result.callId := prepared];
      o := AppendStepToolEvent([prepared]);
      assert PartResultIds([prepared]) == {result.callId} by {
        assert [prepared][0] == prepared;
      }
    }

    /** What is recorded of a result when `all` are there already. */
    function Recorded(result: Part, all: map<string, Part>, total: nat): (p: Part)
      requires result.ToolResultPart?
      reads this`maxSteps, this`ts
      ensures IsResultFor(p, result.callId)
    {
      Prepared(maxSteps, reminder, ts.step, result, all, total)
    }

    /** handle.Wait for one of the handles: the first that asks for approval is kept
        as `pause`, anything else is recorded. */
    method AwaitHandle(hs: seq<Handle>, i: nat, asking: Option<Pause>, allResults: map<string, Part>, total: nat)
      returns (f: Flow, pause: Option<Pause>, all: map<string, Part>, ghost heard: bool)
      requires store.Valid() && AtStep(store.disk, ts, chain, store.IsCalm()) && i < |hs|
      requires allResults.Keys == Answered(store.disk, StepKey(ts))
      requires store.IsCalm() ==> Awaitable(store.disk, StepKey(ts), hs)
      requires store.IsCalm() && asking.Some? ==> StillOpen(store.disk, StepKey(ts), asking.value.callId, hs)
      modifies this`ts, this`chain, this`maxSteps, store
      ensures store.Valid() && store.turns == old(store.turns) && old(store.log) <= store.log
      ensures AtStep(store.disk, ts, chain, store.IsCalm()) && Worked(old(store.disk), old(ts), store.disk, ts)
      ensures ts == old(ts).(leaf := ts.leaf)
      ensures f == LoopContinue || f == LoopStop || f == LoopDied
      ensures store.IsCalm() ==> old(store.IsCalm()) && f == LoopContinue
      ensures heard ==> AllHeard(store.log, |old(store.log)|, StepKey(ts), {hs[i].callId})
      ensures f == LoopContinue ==>
        && all.Keys == Answered(store.disk, StepKey(ts))
        && all.Keys == Answered(old(store.disk), StepKey(ts)) + (if heard then {hs[i].callId} else {})
        && (if heard || asking.Some? then pause == asking else pause.Some? && pause.value.callId == hs[i].callId)
        && (asking.None? ==> PauseKnown(hs, pause, store.log, |old(store.log)|, StepKey(ts)))
      ensures StepKey(ts) in store.disk.results
      ensures f == LoopContinue && store.IsCalm() ==>
        && Awaitable(store.disk, StepKey(ts), hs[..i] + hs[i + 1..])
        && (pause.Some? ==> StillOpen(store.disk, StepKey(ts), pause.value.callId, hs[..i] + hs[i + 1..]))
    {
      hide LegalRun, Consistent, AtStep, Worked, Answered, CalmStep, Savable, StepMessage, Awaitable, StillOpen,
        Unresolved, HeardSince, AllHeard, Prepared, ResultOf, AsksFor, store.Valid, store.IsCalm, store.Sound,
        store.MayRecord;
      ghost var d, t, ids, log := store.disk, ts, chain, store.log;
      AtStepFacts(d, t, ids, store.IsCalm());
      if store.IsCalm() {
        TakenAwaitable(d, StepKey(t), hs, i);
      }
      f, pause, all, heard := LoopContinue, asking, allResults, false;
      var h := hs[i];
      var r := Answer(h.callId, false);
      if r.NeedsApproval? {
        if pause.None? {
          pause := Some(PauseOf(h.callId, h.payload, r));
          OneAsks(hs, i, r, log, store.log, StepKey(t), d);
        }
        WorkedRefl(d, t);
        return;
      }
      ResultIsResult(h.callId, h.toolName, "", r);
      var o;
      o, all := RecordResult(ResultOf(h.callId, h.toolName, "", r), all, total);
      HeardNow(log, store.log, StepKey(t), h.callId, r, d);
      heard := true;
      AtStepFacts(store.disk, ts, chain, store.IsCalm());
      WorkedFacts(d, t, store.disk, ts, ids);
      if o != Written {
        f := FlowOf(o);
        return;
      }
      if store.IsCalm() {
        TakenAnswered(d, store.disk, StepKey(ts), hs, i);
      }
    }

    /** Waits for every handle, in whatever order they finish. The first one
        that asks for approval is reported; results are recorded as they come. */
    method WaitForAsyncHandles(pending: seq<Handle>, allResults: map<string, Part>, total: nat)
      returns (f: Flow, pause: Option<Pause>, all: map<string, Part>, ghost heard: set<string>)
      requires store.Valid() && AtStep(store.disk, ts, chain, store.IsCalm())
      requires allResults.Keys == Answered(store.disk, StepKey(ts))
      requires store.IsCalm() ==> Awaitable(store.disk, StepKey(ts), pending)
      modifies this`ts, this`chain, this`maxSteps, store
      ensures store.Valid() && store.turns == old(store.turns) && old(store.log) <= store.log
      ensures AtStep(store.disk, ts, chain, store.IsCalm()) && Worked(old(store.disk), old(ts), store.disk, ts)
      ensures ts == old(ts).(leaf := ts.leaf)
      ensures f == LoopContinue || f == LoopStop || f == LoopDied
      ensures store.IsCalm() ==> old(store.IsCalm()) && f == LoopContinue
      ensures f == LoopContinue ==>
        && all.Keys == Answered(store.disk, StepKey(ts)) == Answered(old(store.disk), StepKey(ts)) + heard
        && AllHeard(store.log, |old(store.log)|, StepKey(ts), heard) && heard <= HandleIds(pending)
        && (if pause.None? then heard == HandleIds(pending) else pause.value.callId in HandleIds(pending))
        && PauseKnown(pending, pause, store.log, |old(store.log)|, StepKey(ts))
        && (pause.Some? && store.IsCalm() ==> OpenCall(store.disk, StepKey(ts), pause.value.callId))
    {
      hide LegalRun, Consistent, AtStep, Worked, Answered, CalmStep, Savable, StepMessage, Awaitable, StillOpen, OpenCall,
        HandlesOpen, HandleIds, Unresolved, AllHeard, PauseKnown, StrayAnswered, CallIds, Waited, store.Valid,
        store.IsCalm;
      ghost var d0, t0, start := store.disk, ts, |store.log|;
      AtStepFacts(d0, ts, chain, store.IsCalm());
      WorkedRefl(d0, t0);
      f, pause, all, heard := LoopContinue, None, allResults, {};
      WaitStarts(pending, store.log, StepKey(ts));
      var rest := pending;
      ghost var asked: set<string> := {};
      while rest != []
        invariant store.Valid() && store.turns == old(store.turns) && old(store.log) <= store.log
        invariant ts == t0.(leaf := ts.leaf)
        invariant AtStep(store.disk, ts, chain, store.IsCalm()) && Worked(d0, t0, store.disk, ts)
        invariant StepKey(ts) in store.disk.results
        invariant store.IsCalm() ==> old(store.IsCalm())
        invariant all.Keys == Answered(store.disk, StepKey(ts)) && all.Keys == Answered(d0, StepKey(ts)) + heard
        invariant f == LoopContinue && Waited(pending, rest, heard, asked, pause, store.log, start, StepKey(ts))
        invariant store.IsCalm() ==> Awaitable(store.disk, StepKey(ts), rest)
        invariant store.IsCalm() && pause.Some? ==> StillOpen(store.disk, StepKey(ts), pause.value.callId, rest)
        decreases |rest|
      {
        var i :| 0 <= i < |rest|;
        ghost var d, t, log, was := store.disk, ts, store.log, pause;
        ghost var heardNow;
        f, pause, all, heardNow := AwaitHandle(rest, i, pause, all, total);
        WorkedTrans(d0, t0, d, t, store.disk, ts);
        if f != LoopContinue {
          return;
        }
        heard, asked := WaitGoesOn(pending, rest, i, heard, asked, was, pause, log, store.log, start, StepKey(ts), heardNow);
        rest := rest[..i] + rest[i + 1..];
      }
      WaitEnds(pending, heard, asked, pause, store.log, start, StepKey(ts));
      if store.IsCalm() && pause.Some? {
        StillOpenIsOpen(store.disk, StepKey(ts), pause.value.callId, rest);
      }
    }

    /** A call whose async continuation is on disk: ask the executor how it
        stands. It keeps running, asks for approval, or ends in a result, a lost
        continuation being recorded as an error result. */
    method HandleRecoveredAsync(
      at: Continuation, resumePhase: ResumePhase, lost: string, allResults: map<string, Part>, total: nat)
      returns (f: Flow, all: map<string, Part>, ghost reply: Reply)
      requires store.Valid() && AtStep(store.disk, ts, chain, store.IsCalm())
      requires Resumable(store.disk, StepKey(ts), at.callId, at.payload, at.input)
      requires allResults.Keys == Answered(store.disk, StepKey(ts))
      requires store.IsCalm() ==> at.callId in Unresolved(store.disk, StepKey(ts))
      modifies this`ts, this`chain, this`maxSteps, this`asyncHandles, store
      ensures store.Valid() && store.turns == old(store.turns) && old(store.log) <= store.log
      ensures Savable(store.disk, ts, chain)
      ensures store.IsCalm() ==> old(store.IsCalm()) && (f == LoopContinue || f == LoopDone)
      ensures f == LoopDone ==> Asking(store.disk, ts, chain, store.IsCalm())
      ensures f == LoopDone ==>
        reply.NeedsApproval? && PausedOn(store.disk, ts, PauseOf(at.callId, at.payload, reply), resumePhase)
      ensures f == LoopContinue ==>
        && AtStep(store.disk, ts, chain, store.IsCalm()) && Worked(old(store.disk), old(ts), store.disk, ts)
        && ts == old(ts).(leaf := ts.leaf) && all.Keys == Answered(store.disk, StepKey(ts))
        && OneMore(allResults.Keys, old(asyncHandles), all.Keys, asyncHandles, at.callId)
      ensures reply.Replied? ==> IsResultFor(reply.result, at.callId)
      ensures old(store.log) + [Event(Resumed(old(StepKey(ts)), at.callId, at.payload, at.input), old(store.disk))]
        + Said(old(StepKey(ts)), at.callId, reply, old(store.disk)) <= store.log
      ensures f == LoopContinue ==>
        if Spoken(reply)
        then store.disk == WithResult(old(store.disk), old(ts), ts.leaf,
               old(Recorded(ResultOf(at.callId, at.toolName, lost, reply), allResults, total)))
        else store.disk == old(store.disk) && reply.GoesAsync?
             && asyncHandles == old(asyncHandles) + [Handle(at.callId, at.toolName, reply.payload)]
    {
      hide LegalRun, Consistent, Resumable, AtStep, Worked, Answered, CalmStep, Savable, StepMessage, Prepared, ResultOf,
        store.Valid, store.IsCalm, store.Sound, store.MayRecord;
      AtStepFacts(store.disk, ts, chain, store.IsCalm());
      all := allResults;
      var r := TakeUp(at);
      reply := r;
      if r.GoesAsync? {
        asyncHandles := asyncHandles + [Handle(at.callId, at.toolName, r.payload)];
        WorkedRefl(store.disk, ts);
        return LoopContinue, all, r;
      }
      if r.NeedsApproval? {
        f := PauseForApproval(at.callId, resumePhase, if r.continuation == "" then at.payload else r.continuation);
        return;
      }
      ResultIsResult(at.callId, at.toolName, lost, r);
      var o;
      o, all := RecordResult(ResultOf(at.callId, at.toolName, lost, r), all, total);
      AtStepFacts(store.disk, ts, chain, store.IsCalm());
      f := if o == Written then LoopContinue else FlowOf(o);
    }

    /** One more continuation at the end of the async index. */
    method ListContinuation(at: Continuation, continuations: seq<Continuation>) returns (f: Flow)
      requires store.Valid() && AtStep(store.disk, ts, chain, store.IsCalm())
      requires store.IsCalm() ==>
        && at.callId in Unresolved(store.disk, StepKey(ts))
        && KnownContinuations(continuations, KnownIds(store.disk, StepKey(ts)))
        && forall i :: 0 <= i < |continuations| ==> continuations[i].callId != at.callId
      modifies store`disk, store`log, store`turns
      ensures store.Valid() && store.turns == old(store.turns) && old(store.log) <= store.log
      ensures AtStep(store.disk, ts, chain, store.IsCalm()) && Savable(store.disk, ts, chain)
      ensures f != LoopDone && (store.IsCalm() ==> old(store.IsCalm()) && f == LoopContinue)
      ensures f == LoopContinue ==>
        && store.disk == WithAsync(old(store.disk), StepKey(ts), continuations + [at])
        && store.disk.results == old(store.disk.results)
        && Answered(store.disk, StepKey(ts)) == Answered(old(store.disk), StepKey(ts))
        && StepMessage(store.disk, StepKey(ts)) == StepMessage(old(store.disk), StepKey(ts))
    {
      hide LegalRun, Consistent, AtStep, Answered, CalmStep, Savable, StepMessage, CallIds, store.Valid, store.IsCalm;
      ghost var d, calm := store.disk, store.IsCalm();
      AtStepFacts(d, ts, chain, calm);
      store.DiskFacts();
      var cs := continuations + [at];
      AsyncSaved(d, ts, chain, calm, cs);
      var o := store.SaveAsyncContinuations(StepKey(ts), cs);
      AtStepFacts(store.disk, ts, chain, if o == Written then calm else false);
      f := if o == Written then LoopContinue else FlowOf(o);
    }

    /** A call that has neither a result nor a continuation: run it. Async work
        started earlier in the step is waited for before the turn pauses. */
    method HandleFreshTool(tc: Part, continuations: seq<Continuation>, allResults: map<string, Part>, total: nat)
      returns (f: Flow, all: map<string, Part>, ghost reply: Reply, ghost asking: Pause)
      requires tc.ToolCallPart? && tc.callId !in allResults
      requires Executable(store.disk, StepKey(ts), tc)
      requires store.Valid() && AtStep(store.disk, ts, chain, store.IsCalm())
      requires allResults.Keys == Answered(store.disk, StepKey(ts))
      requires store.IsCalm() ==>
        && tc.callId in Unresolved(store.disk, StepKey(ts)) && tc.callId !in HandleIds(asyncHandles)
        && HandlesOpen(store.disk, StepKey(ts), asyncHandles)
        && KnownContinuations(continuations, KnownIds(store.disk, StepKey(ts)))
        && forall i :: 0 <= i < |continuations| ==> continuations[i].callId != tc.callId
      modifies this`ts, this`chain, this`maxSteps, this`asyncHandles, store
      ensures store.Valid() && store.turns == old(store.turns) && old(store.log) <= store.log
      ensures Savable(store.disk, ts, chain)
      ensures store.IsCalm() ==> old(store.IsCalm()) && (f == LoopContinue || f == LoopDone)
      ensures f == LoopDone ==> Asking(store.disk, ts, chain, store.IsCalm())
      ensures f == LoopDone ==>
        && reply.NeedsApproval? && PausedOn(store.disk, ts, asking, Tools)
        && (asking == Pause(tc.callId, reply.continuation)
            || AsksFor(old(asyncHandles), asking, store.log, |old(store.log)|, old(StepKey(ts))))
      ensures f == LoopContinue ==>
        && AtStep(store.disk, ts, chain, store.IsCalm()) && store.disk.results == old(store.disk.results)
        && StepMessage(store.disk, StepKey(ts)) == StepMessage(old(store.disk), StepKey(ts))
        && ts == old(ts).(leaf := ts.leaf) && all.Keys == Answered(store.disk, StepKey(ts))
        && OneMore(allResults.Keys, old(asyncHandles), all.Keys, asyncHandles, tc.callId)
      ensures reply.Replied? ==> IsResultFor(reply.result, tc.callId)
      ensures old(store.log) + [Event(Executed(old(StepKey(ts)), tc), old(store.disk))]
        + Said(old(StepKey(ts)), tc.callId, reply, old(store.disk)) <= store.log
      ensures f == LoopContinue ==>
        if Spoken(reply)
        then asyncHandles == old(asyncHandles) && Worked(old(store.disk), old(ts), store.disk, ts)
             && store.disk == WithResult(old(store.disk), old(ts), ts.leaf,
                  old(Recorded(ResultOf(tc.callId, tc.toolName, "", reply), allResults, total)))
        else reply.GoesAsync? && asyncHandles == old(asyncHandles) + [Handle(tc.callId, tc.toolName, reply.payload)]
             && store.disk == WithAsync(old(store.disk), StepKey(ts),
                  continuations + [Continuation(tc.callId, tc.toolName, reply.payload, tc.input)])
    {
      hide LegalRun, Consistent, Executable, AtStep, Worked, Answered, CalmStep, Savable, StepMessage, Prepared, ResultOf,
        KnownContinuations, HandlesOpen, CallIds, Asking, WithResult, WithAsync, KnownIds, HandleIds, PausedOn, AsksFor,
        store.Valid, store.IsCalm, store.Sound, store.MayRecord;
      AtStepFacts(store.disk, ts, chain, store.IsCalm());
      all := allResults;
      ghost var d, ids, answered := store.disk, chain, allResults.Keys;
      var r := Execute(tc);
      reply, asking := r, Pause("", "");
      if r.GoesAsync? {
        asyncHandles := asyncHandles + [Handle(tc.callId, tc.toolName, r.payload)];
        f := ListContinuation(Continuation(tc.callId, tc.toolName, r.payload, tc.input), continuations);
        return;
      }
      if r.NeedsApproval? {
        ghost var hs, log := asyncHandles, store.log;
        f, all, asking := PauseAfterAsync(tc.callId, r.continuation, all, total);
        if f == LoopDone && asking != Pause(tc.callId, r.continuation) {
          MoreAsk(hs, hs, asking, store.log, store.log, |old(store.log)|, |log|, old(StepKey(ts)));
        }
        return;
      }
      ResultIsResult(tc.callId, tc.toolName, "", r);
      var o;
      o, all := RecordResult(ResultOf(tc.callId, tc.toolName, "", r), all, total);
      AtStepFacts(store.disk, ts, chain, store.IsCalm());
      WorkedFacts(d, old(ts), store.disk, ts, ids);
      f := if o == Written then LoopContinue else FlowOf(o);
    }

    /** A fresh call needs approval: flush the async work first, then pause for
        whichever asked first. */
    method PauseAfterAsync(callId: string, continuation: string, allResults: map<string, Part>, total: nat)
      returns (f: Flow, all: map<string, Part>, ghost p: Pause)
      requires store.Valid() && AtStep(store.disk, ts, chain, store.IsCalm())
      requires allResults.Keys == Answered(store.disk, StepKey(ts))
      requires store.IsCalm() ==>
        && callId in Unresolved(store.disk, StepKey(ts)) && callId !in HandleIds(asyncHandles)
        && HandlesOpen(store.disk, StepKey(ts), asyncHandles)
      modifies this`ts, this`chain, this`maxSteps, this`asyncHandles, store
      ensures store.Valid() && store.turns == old(store.turns) && old(store.log) <= store.log
      ensures Savable(store.disk, ts, chain)
      ensures f != LoopContinue && (store.IsCalm() ==> old(store.IsCalm()) && f == LoopDone)
      ensures f == LoopDone ==> Asking(store.disk, ts, chain, store.IsCalm())
      ensures f == LoopDone ==>
        && PausedOn(store.disk, ts, p, Tools)
        && (p == Pause(callId, continuation) || AsksFor(old(asyncHandles), p, store.log, |old(store.log)|, old(StepKey(ts))))
    {
      hide LegalRun, Consistent, AtStep, Worked, Answered, CalmStep, Savable, StepMessage;
      all, p := allResults, Pause(callId, continuation);
      AtStepFacts(store.disk, ts, chain, store.IsCalm());
      if |asyncHandles| > 0 {
        OpenIsAwaitable(store.disk, StepKey(ts), asyncHandles);
        ghost var asking;
        f, all, asking := FlushHandles(Tools, all, total);
        if f != LoopContinue {
          p := asking;
          return;
        }
      }
      f := PauseForApproval(callId, Tools, continuation);
    }

    /** Waits for all the live handles; a question of one of them comes first. */
    method FlushHandles(resumePhase: ResumePhase, allResults: map<string, Part>, total: nat)
      returns (f: Flow, all: map<string, Part>, ghost asking: Pause)
      requires store.Valid() && AtStep(store.disk, ts, chain, store.IsCalm())
      requires allResults.Keys == Answered(store.disk, StepKey(ts))
      requires store.IsCalm() ==> Awaitable(store.disk, StepKey(ts), asyncHandles)
      modifies this`ts, this`chain, this`maxSteps, this`asyncHandles, store
      ensures store.Valid() && store.turns == old(store.turns) && old(store.log) <= store.log
      ensures Savable(store.disk, ts, chain)
      ensures store.IsCalm() ==> old(store.IsCalm()) && (f == LoopContinue || f == LoopDone)
      ensures f == LoopDone ==> Asking(store.disk, ts, chain, store.IsCalm())
      ensures f == LoopDone ==>
        && PausedOn(store.disk, ts, asking, resumePhase)
        && AsksFor(old(asyncHandles), asking, store.log, |old(store.log)|, old(StepKey(ts)))
      ensures f == LoopContinue ==>
        && AtStep(store.disk, ts, chain, store.IsCalm()) && ts == old(ts).(leaf := ts.leaf)
        && StepKey(ts) in store.disk.results && StepMessage(store.disk, StepKey(ts)) == StepMessage(old(store.disk), StepKey(ts))
        && all.Keys == Answered(store.disk, StepKey(ts))
        && Answered(store.disk, StepKey(ts)) <= Answered(old(store.disk), StepKey(ts)) + HandleIds(old(asyncHandles))
        && asyncHandles == [] && HandleIds(old(asyncHandles)) <= all.Keys
        && AllHeard(store.log, |old(store.log)|, StepKey(ts), HandleIds(old(asyncHandles)))
    {
      hide LegalRun, Consistent, AtStep, Worked, Answered, CalmStep, Savable, StepMessage, Awaitable, OpenCall,
        Unresolved, Asking, HandleIds, AllHeard, HeardSince, AsksFor, store.Valid, store.IsCalm;
      ghost var d, t, ids := store.disk, ts, chain;
      AtStepFacts(d, t, ids, store.IsCalm());
      var pause;
      ghost var heard;
      f, pause, all, heard := WaitForAsyncHandles(asyncHandles, allResults, total);
      AtStepFacts(store.disk, ts, chain, store.IsCalm());
      WorkedFacts(d, t, store.disk, ts, ids);
      asking := if f == LoopContinue && pause.Some? then pause.value else Pause("", "");
      if f != LoopContinue {
        return;
      }
      if pause.Some? {
        ghost var log := store.log;
        f := PauseForApproval(pause.value.callId, resumePhase, pause.value.continuation);
        ghost var hs, start := asyncHandles, |old(store.log)|;
        MoreAsk(hs, hs, asking, log, store.log, start, start, old(StepKey(ts)));
        return;
      }
      asyncHandles := [];
    }

    /** Leaves the step behind: the only place where the persisted turn moves on. In
        the last allowed step the limit is dropped first (prepareMaxStepsFinalStep). */
    method AdvanceToNextStep() returns (o: Outcome)
      requires store.Valid() && AtStep(store.disk, ts, chain, store.IsCalm())
      requires Unresolved(store.disk, StepKey(ts)) == {}
      modifies this`ts, this`maxSteps, store`disk, store`log, store`turns
      ensures store.Valid() && store.turns == old(store.turns) && old(store.log) <= store.log
      ensures Savable(store.disk, ts, chain) && store.disk == old(store.disk).(turn := store.disk.turn)
      ensures o == Written || o == Failed || o == Died
      ensures store.IsCalm() ==> old(store.IsCalm()) && o == Written
      ensures o == Written ==>
        && ts == old(ts).(step := old(ts).step + 1, phase := Streaming, pending := "")
        && AtNextStep(store.disk, old(StepKey(ts)), ts, chain, store.IsCalm())
        && (maxSteps == 0 || ts.step < maxSteps)
    {
      hide LegalRun, Consistent, Savable, AtStep, CalmStart, Answered, StepMessage, CallIds, store.Valid, store.IsCalm;
      AtStepFacts(store.disk, ts, chain, store.IsCalm());
      if maxSteps > 0 && ts.step + 1 >= maxSteps {
        maxSteps := 0;
        ghost var d, calm := store.disk, store.IsCalm();
        o := SaveTurn();
        if o != Written {
          return;
        }
        SavedAtStep(d, ts, chain, calm);
        AtStepFacts(store.disk, ts, chain, store.IsCalm());
      }
      ghost var d, t, calm := store.disk, ts, store.IsCalm();
      StepLeft(d, t, chain, calm);
      ts := ts.(step := ts.step + 1, phase := Streaming, pending := "");
      o := SaveTurn();
    }

    /** A cancelled step: every call without a result gets one that says so.
        A failing write is ignored here. */
    method CancelOpenCalls(calls: seq<Part>, allResults: map<string, Part>) returns (f: Flow)
      requires store.Valid() && AtStep(store.disk, ts, chain, store.IsCalm())
      requires calls == ExecutorCalls(StepMessage(store.disk, StepKey(ts)).parts)
      requires allResults.Keys == Answered(store.disk, StepKey(ts))
      modifies this`ts, this`chain, this`maxSteps, store
      ensures store.Valid() && store.turns == old(store.turns) && old(store.log) <= store.log
      ensures AtStep(store.disk, ts, chain, store.IsCalm())
      ensures ts == old(ts).(leaf := ts.leaf)
      ensures (f == LoopDone || f == LoopDied) && (store.IsCalm() ==> old(store.IsCalm()) && f == LoopDone)
      ensures store.IsCalm() ==> Unresolved(store.disk, StepKey(ts)) == {}
      ensures ErrorsListed(old(store.disk), store.disk, StepKey(ts), CANCELLED)
    {
      hide LegalRun, Consistent, AtStep, Answered, Savable, StepMessage, ExecutorCalls, CallIds, Worked, Prepared,
        OwnError, ErrorsListed, Carries, store.Valid, store.IsCalm;
      var all := allResults;
      AtStepFacts(store.disk, ts, chain, store.IsCalm());
      ghost var m := StepMessage(store.disk, StepKey(ts));
      CallIdsAreCalls(m);
      NoneListed(store.disk, StepKey(ts), CANCELLED);
      for i := 0 to |calls|
        invariant store.Valid() && store.turns == old(store.turns) && old(store.log) <= store.log
        invariant ts == old(ts).(leaf := ts.leaf)
        invariant AtStep(store.disk, ts, chain, store.IsCalm())
        invariant StepKey(ts) in store.disk.results && StepMessage(store.disk, StepKey(ts)) == m
        invariant store.IsCalm() ==> old(store.IsCalm()) && all.Keys == Answered(store.disk, StepKey(ts))
        invariant Answered(store.disk, StepKey(ts)) <= all.Keys
        invariant forall j :: 0 <= j < i ==> calls[j].callId in all
        invariant ErrorsListed(old(store.disk), store.disk, StepKey(ts), CANCELLED)
      {
        var tc := calls[i];
        if tc.callId in all {
          continue;
        }
        ghost var d, t, ids := store.disk, ts, chain;
        AtStepFacts(d, t, ids, store.IsCalm());
        assert tc.callId in CallIds(m) && tc.callId in Unresolved(d, StepKey(t));
        LoopErrors(tc.callId, tc.toolName);
        store.DiskConsistent();
        ghost var p := Recorded(ErrorResult(tc.callId, tc.toolName, CANCELLED), all, |calls|);
        PreparedCarries(maxSteps, reminder, ts.step, ErrorResult(tc.callId, tc.toolName, CANCELLED), all, |calls|);
        var o;
        o, all := RecordResult(ErrorResult(tc.callId, tc.toolName, CANCELLED), all, |calls|);
        AtStepFacts(store.disk, ts, chain, store.IsCalm());
        WorkedFacts(d, t, store.disk, ts, ids);
        ErrorListed(old(store.disk), d, store.disk, t, ts, tc.callId, tc.toolName, CANCELLED, p, o == Written);
        if o == Died {
          return LoopDied;
        }
      }
      f := LoopDone;
    }

    /** Closes the tools phase: cancellation, async waiting, or the next step. */
    method FinalizeToolsPhase(calls: seq<Part>, allResults: map<string, Part>) returns (f: Flow)
      requires ts.phase == Tools && store.Valid() && AtStep(store.disk, ts, chain, store.IsCalm())
      requires calls == ExecutorCalls(StepMessage(store.disk, StepKey(ts)).parts)
      requires allResults.Keys == Answered(store.disk, StepKey(ts))
      requires !cancelled ==> Unresolved(store.disk, StepKey(ts)) <= HandleIds(asyncHandles)
      requires !cancelled && store.IsCalm() ==> HandlesOpen(store.disk, StepKey(ts), asyncHandles)
      modifies this`ts, this`chain, this`maxSteps, this`cancelled, store
      ensures store.Valid() && store.turns == old(store.turns) && old(store.log) <= store.log
      ensures Savable(store.disk, ts, chain)
      ensures store.IsCalm() ==> old(store.IsCalm()) && (f == LoopContinue || f == LoopDone)
      ensures f == LoopContinue ==> ToolsPhaseLeft(store.disk, old(StepKey(ts)), ts, chain, store.IsCalm(), asyncHandles)
      ensures f == LoopDone ==> cancelled && StepCancelled(store.disk, ts, chain, store.IsCalm())
      ensures f == LoopDone ==> ErrorsListed(old(store.disk), store.disk, StepKey(ts), CANCELLED)
    {
      hide LegalRun, Consistent, AtStep, Answered, Savable, StepMessage, ExecutorCalls, CallIds, CalmStep, AtNextStep;
      AtStepFacts(store.disk, ts, chain, store.IsCalm());
      var stopped := ContextErr();
      if stopped {
        f := CancelOpenCalls(calls, allResults);
        AtStepFacts(store.disk, ts, chain, store.IsCalm());
        return;
      }
      if |asyncHandles| > 0 {
        ghost var d, calm := store.disk, store.IsCalm();
        AtStepFacts(d, ts, chain, calm);
        NothingPending(d, ts, chain);
        PhaseChanged(d, ts, chain, calm, WaitingForAsync, ts.pending);
        ts := ts.(phase := WaitingForAsync);
        AtStepFacts(d, ts, chain, calm);
        var o := SaveTurn();
        if o != Written {
          return FlowOf(o);
        }
        SavedAtStep(d, ts, chain, calm);
        AtStepFacts(store.disk, ts, chain, calm);
        return LoopContinue;
      }
      assert HandleIds(asyncHandles) == {};
      var o := AdvanceToNextStep();
      f := if o == Written then LoopContinue else FlowOf(o);
    }

    /** An error result for a call that a restart interrupted. */
    method MarkInterrupted(tc: Part, allResults: map<string, Part>, total: nat) returns (f: Flow, all: map<string, Part>)
      requires tc.ToolCallPart? && tc.callId !in allResults
      requires store.Valid() && AtStep(store.disk, ts, chain, store.IsCalm())
      requires allResults.Keys == Answered(store.disk, StepKey(ts))
      requires store.IsCalm() ==> tc.callId in Unresolved(store.disk, StepKey(ts))
      modifies this`ts, this`chain, this`maxSteps, store
      ensures store.Valid() && store.turns == old(store.turns) && old(store.log) <= store.log
      ensures Savable(store.disk, ts, chain)
      ensures f != LoopDone && (store.IsCalm() ==> old(store.IsCalm()) && f == LoopContinue)
      ensures f == LoopContinue ==>
        && AtStep(store.disk, ts, chain, store.IsCalm()) && ts == old(ts).(leaf := ts.leaf)
        && StepMessage(store.disk, StepKey(ts)) == StepMessage(old(store.disk), StepKey(ts))
        && store.disk.results == old(store.disk.results) && store.disk.async == old(store.disk.async)
        && all.Keys == Answered(store.disk, StepKey(ts))
        && OneMore(allResults.Keys, asyncHandles, all.Keys, asyncHandles, tc.callId)
        && store.disk == WithResult(old(store.disk), old(ts), ts.leaf,
             old(Recorded(ErrorResult(tc.callId, tc.toolName, INTERRUPTED), allResults, total)))
    {
      hide LegalRun, Consistent, AtStep, Worked, Answered, CalmStep, Savable, StepMessage, Prepared, OwnError, CallIds,
        store.Valid, store.IsCalm;
      ghost var d, t, ids := store.disk, ts, chain;
      AtStepFacts(d, t, ids, store.IsCalm());
      LoopErrors(tc.callId, tc.toolName);
      var o;
      o, all := RecordResult(ErrorResult(tc.callId, tc.toolName, INTERRUPTED), allResults, total);
      AtStepFacts(store.disk, ts, chain, store.IsCalm());
      WorkedFacts(d, t, store.disk, ts, ids);
      f := if o == Written then LoopContinue else FlowOf(o);
    }

    /** A call without a result: resume it, mark it as interrupted, or run it. */
    method StartToolCall(
      tc: Part, existing: map<string, Continuation>, continuations: seq<Continuation>,
      resumed: bool, interruptedOne: bool, allResults: map<string, Part>, total: nat)
      returns (f: Flow, interrupted: bool, all: map<string, Part>, ghost begun: seq<string>)
      requires tc.ToolCallPart? && tc.callId !in allResults
      requires Executable(store.disk, StepKey(ts), tc)
      requires store.Valid() && AtStep(store.disk, ts, chain, store.IsCalm())
      requires allResults.Keys == Answered(store.disk, StepKey(ts))
      requires forall c :: c in existing ==> existing[c].callId == c && existing[c] in AsyncOf(store.disk, StepKey(ts))
      requires forall i :: 0 <= i < |continuations| ==> continuations[i].callId in existing
      requires store.IsCalm() ==>
        && tc.callId in Unresolved(store.disk, StepKey(ts)) && tc.callId !in HandleIds(asyncHandles)
        && HandlesOpen(store.disk, StepKey(ts), asyncHandles)
        && KnownContinuations(continuations, KnownIds(store.disk, StepKey(ts)))
      modifies this`ts, this`chain, this`maxSteps, this`asyncHandles, store
      ensures store.Valid() && store.turns == old(store.turns) && old(store.log) <= store.log
      ensures Savable(store.disk, ts, chain)
      ensures store.IsCalm() ==> old(store.IsCalm()) && (f == LoopContinue || f == LoopDone)
      ensures f == LoopDone ==> Asking(store.disk, ts, chain, store.IsCalm())
      ensures interrupted <==>
        interruptedOne || FateOf(tc.callId, allResults.Keys, existing.Keys, resumed, interruptedOne) == Marks
      ensures FateOf(tc.callId, allResults.Keys, existing.Keys, resumed, interruptedOne) == Runs ==>
        AllRan(store.log, |old(store.log)|, old(StepKey(ts)), {tc.callId})
      ensures f == LoopContinue && FateOf(tc.callId, allResults.Keys, existing.Keys, resumed, interruptedOne) == Marks ==>
        store.disk == WithResult(old(store.disk), old(ts), ts.leaf,
          old(Recorded(ErrorResult(tc.callId, tc.toolName, INTERRUPTED), allResults, total)))
      ensures f == LoopContinue ==>
        && AtStep(store.disk, ts, chain, store.IsCalm()) && ts == old(ts).(leaf := ts.leaf)
        && StepMessage(store.disk, StepKey(ts)) == StepMessage(old(store.disk), StepKey(ts))
        && store.disk.results == old(store.disk.results)
        && all.Keys == Answered(store.disk, StepKey(ts))
        && (begun == [] ==> AsyncOf(store.disk, StepKey(ts)) == AsyncOf(old(store.disk), StepKey(ts)))
        && (begun != [] ==>
              && begun == [tc.callId] && LastAdded(AsyncOf(store.disk, StepKey(ts)), continuations, begun)
              && tc.callId in HandleIds(asyncHandles) && tc.callId !in existing)
        && OneMore(allResults.Keys, old(asyncHandles), all.Keys, asyncHandles, tc.callId)
    {
      hide LegalRun, Consistent, Executable, Resumable, AtStep, Answered, Savable, StepMessage, CallIds, CalmStep, Worked,
        Unresolved, HandlesOpen, KnownContinuations, HandleIds, Asking, KnownIds, LastAdded, AllRan, RanSince, OwnError,
        Prepared, ResultOf, WithResult, OneMore, ErrorResult, Said, PausedOn, AsksFor, store.Valid, store.IsCalm;
      ghost var d, t, ids, hs := store.disk, ts, chain, asyncHandles;
      AtStepFacts(d, t, ids, store.IsCalm());
      interrupted, begun := interruptedOne, [];
      ghost var reply, asking;
      if tc.callId in existing {
        var at := existing[tc.callId].(toolName := tc.toolName);
        ListedIsResumable(d, StepKey(t), existing[tc.callId]);
        f, all, reply := HandleRecoveredAsync(at, Tools, "async continuation lost: ", allResults, total);
        if f == LoopContinue {
          WorkedFacts(d, t, store.disk, ts, ids);
        }
      } else if resumed && !interruptedOne {
        interrupted := true;
        f, all := MarkInterrupted(tc, allResults, total);
      } else {
        f, all, reply, asking := HandleFreshTool(tc, continuations, allResults, total);
        RanNow(old(store.log), store.log, StepKey(t), tc, Said(StepKey(t), tc.callId, reply, d), d);
        if f == LoopContinue {
          if Spoken(reply) {
            WorkedFacts(d, t, store.disk, ts, ids);
          } else {
            begun := [tc.callId];
            HandleAdded(hs, Handle(tc.callId, tc.toolName, reply.payload));
            OneBegun(d, StepKey(t), continuations, Continuation(tc.callId, tc.toolName, reply.payload, tc.input));
          }
        }
      }
    }

    /** One tool call of the tools phase: skip it, resume it, mark it as
        interrupted (once per phase, after a restart), or run it. */
    method ProcessToolCall(
      tc: Part, existing: map<string, Continuation>, continuations: seq<Continuation>,
      resumed: bool, interruptedOne: bool, allResults: map<string, Part>, total: nat)
      returns (f: Flow, interrupted: bool, all: map<string, Part>, ghost begun: seq<string>)
      requires tc.ToolCallPart?
      requires Executable(store.disk, StepKey(ts), tc)
      requires store.Valid() && AtStep(store.disk, ts, chain, store.IsCalm())
      requires allResults.Keys == Answered(store.disk, StepKey(ts))
      requires forall c :: c in existing ==> existing[c].callId == c && existing[c] in AsyncOf(store.disk, StepKey(ts))
      requires forall i :: 0 <= i < |continuations| ==> continuations[i].callId in existing
      requires store.IsCalm() ==>
        && tc.callId in CallIds(StepMessage(store.disk, StepKey(ts))) && tc.callId !in HandleIds(asyncHandles)
        && HandlesOpen(store.disk, StepKey(ts), asyncHandles)
        && KnownContinuations(continuations, KnownIds(store.disk, StepKey(ts)))
      modifies this`ts, this`chain, this`maxSteps, this`asyncHandles, store
      ensures store.Valid() && store.turns == old(store.turns) && old(store.log) <= store.log
      ensures Savable(store.disk, ts, chain)
      ensures store.IsCalm() ==> old(store.IsCalm()) && (f == LoopContinue || f == LoopDone)
      ensures f == LoopDone ==> Asking(store.disk, ts, chain, store.IsCalm())
      ensures interrupted <==>
        interruptedOne || FateOf(tc.callId, allResults.Keys, existing.Keys, resumed, interruptedOne) == Marks
      ensures FateOf(tc.callId, allResults.Keys, existing.Keys, resumed, interruptedOne) == Runs ==>
        AllRan(store.log, |old(store.log)|, old(StepKey(ts)), {tc.callId})
      ensures f == LoopContinue && FateOf(tc.callId, allResults.Keys, existing.Keys, resumed, interruptedOne) == Marks ==>
        store.disk == WithResult(old(store.disk), old(ts), ts.leaf,
          old(Recorded(ErrorResult(tc.callId, tc.toolName, INTERRUPTED), allResults, total)))
      ensures f == LoopContinue ==>
        && AtStep(store.disk, ts, chain, store.IsCalm()) && ts == old(ts).(leaf := ts.leaf)
        && StepMessage(store.disk, StepKey(ts)) == StepMessage(old(store.disk), StepKey(ts))
        && store.disk.results == old(store.disk.results)
        && all.Keys == Answered(store.disk, StepKey(ts)) && allResults.Keys <= all.Keys <= allResults.Keys + {tc.callId}
        && (begun == [] ==> AsyncOf(store.disk, StepKey(ts)) == AsyncOf(old(store.disk), StepKey(ts)))
        && (begun != [] ==>
              && begun == [tc.callId] && LastAdded(AsyncOf(store.disk, StepKey(ts)), continuations, begun)
              && tc.callId in HandleIds(asyncHandles) && tc.callId !in existing)
        && HandleIds(old(asyncHandles)) <= HandleIds(asyncHandles) <= HandleIds(old(asyncHandles)) + {tc.callId}
        && (tc.callId in all || tc.callId in HandleIds(asyncHandles))
        && (store.IsCalm() ==> HandlesOpen(store.disk, StepKey(ts), asyncHandles))
    {
      hide LegalRun, Consistent, Executable, AtStep, Answered, Savable, StepMessage, ExecutorCalls, CallIds, CalmStep,
        HandlesOpen, KnownContinuations, HandleIds, Asking, KnownIds, LastAdded, AllRan, Recorded, WithResult, OneMore,
        store.Valid, store.IsCalm;
      ghost var d, hs := store.disk, asyncHandles;
      AtStepFacts(d, ts, chain, store.IsCalm());
      all, interrupted, begun := allResults, interruptedOne, [];
      if tc.callId in all {
        return LoopContinue, interrupted, all, begun;
      }
      assert store.IsCalm() ==> tc.callId in Unresolved(d, StepKey(ts));
      f, interrupted, all, begun := StartToolCall(tc, existing, continuations, resumed, interruptedOne, all, total);
      if f == LoopContinue {
        AtStepFacts(store.disk, ts, chain, store.IsCalm());
        OneMoreCovers(allResults.Keys, hs, all.Keys, asyncHandles, tc.callId);
        if store.IsCalm() {
          HandlesStayOpen(d, store.disk, StepKey(ts), hs, asyncHandles, tc.callId);
        }
      }
    }

    /** The loop over the step's calls. */
    method RunToolCalls(
      calls: seq<Part>, existing: map<string, Continuation>, continuations: seq<Continuation>, completed: map<string, Part>)
      returns (f: Flow, all: map<string, Part>, ghost t: Tally)
      requires store.Valid() && AtStep(store.disk, ts, chain, store.IsCalm()) && asyncHandles == []
      requires calls == ExecutorCalls(StepMessage(store.disk, StepKey(ts)).parts)
      requires completed.Keys == Answered(store.disk, StepKey(ts))
      requires forall c :: c in existing ==> existing[c].callId == c && existing[c] in continuations
      requires forall i :: 0 <= i < |continuations| ==> continuations[i].callId in existing
      requires continuations == AsyncOf(store.disk, StepKey(ts))
      requires store.IsCalm() ==>
        && DistinctCalls(StepMessage(store.disk, StepKey(ts)))
        && KnownContinuations(continuations, KnownIds(store.disk, StepKey(ts)))
      modifies this, store
      ensures store.Valid() && store.turns == old(store.turns) && old(store.log) <= store.log
      ensures Savable(store.disk, ts, chain)
      ensures store.IsCalm() ==> old(store.IsCalm()) && (f == LoopContinue || f == LoopDone)
      ensures f == LoopDone ==> Asking(store.disk, ts, chain, store.IsCalm())
      ensures f == LoopContinue ==>
        && AtStep(store.disk, ts, chain, store.IsCalm()) && StepKey(ts) == old(StepKey(ts)) && ts.phase == old(ts.phase)
        && StepMessage(store.disk, StepKey(ts)) == StepMessage(old(store.disk), StepKey(ts))
        && all.Keys == Answered(store.disk, StepKey(ts))
        && (!cancelled ==> CallIds(StepMessage(store.disk, StepKey(ts))) <= all.Keys + HandleIds(asyncHandles))
        && (store.IsCalm() ==> HandlesOpen(store.disk, StepKey(ts), asyncHandles))
      ensures f == LoopContinue ==>
        && LastAdded(AsyncOf(store.disk, StepKey(ts)), continuations, t.begun)
        && (forall c :: c in t.begun ==> c in HandleIds(asyncHandles) && !Listed(continuations, c))
        && Accounted(store.log, |old(store.log)|, StepKey(ts), Found(completed.Keys, existing.Keys, continuations), t,
             all.Keys + HandleIds(asyncHandles))
    {
      hide LegalRun, Consistent, Executable, OpenCall, Unresolved, AtStep, Answered, Savable, StepMessage, ExecutorCalls,
        CallIds, CalmStep, Worked, HandlesOpen, KnownContinuations, HandleIds, DistinctCalls, LastAdded, Listed, AllRan,
        Accounted, Progress, Asking, FateOf, WithResult, Recorded, store.Valid, store.IsCalm;
      AtStepFacts(store.disk, ts, chain, store.IsCalm());
      ghost var m := StepMessage(store.disk, StepKey(ts));
      CallIdsAreCalls(m);
      NoHandles(store.disk, StepKey(ts));
      ghost var callIds := IdsOfCalls(calls);
      if store.IsCalm() {
        CallsAreDistinct(m);
      }
      all, t := completed, Tally([], {}, {});
      ghost var k, found, start := StepKey(ts), Found(completed.Keys, existing.Keys, continuations), |store.log|;
      ProgressStarts(callIds, found, store.log, k);
      var interruptedOne := false;
      ghost var more, done := [], 0;
      for i := 0 to |calls|
        invariant done == i
        invariant store.Valid() && store.turns == old(store.turns) && old(store.log) <= store.log
        invariant ts == old(ts).(leaf := ts.leaf)
        invariant AtStep(store.disk, ts, chain, store.IsCalm())
        invariant CurrentStep(store.disk, k) && k in store.disk.results && StepMessage(store.disk, k) == m
        invariant store.disk.results == old(store.disk.results)
        invariant store.IsCalm() ==> old(store.IsCalm()) && HandlesOpen(store.disk, k, asyncHandles)
        invariant all.Keys == Answered(store.disk, k)
        invariant Progress(callIds, i, found, t, interruptedOne, store.log, start, k, all.Keys, HandleIds(asyncHandles),
            AsyncOf(store.disk, k))
      {
        var stopped := ContextErr();
        if stopped {
          break;
        }
        assert calls[i].callId in CallIds(m) && calls[i] in calls;
        CallIsExecutable(store.disk, k, calls[i]);
        ghost var before, hs, log := all.Keys, HandleIds(asyncHandles), store.log;
        ghost var cs, one := AsyncOf(store.disk, k), interruptedOne;
        ProgressFacts(callIds, i, found, t, one, log, start, k, before, hs, cs);
        f, interruptedOne, all, more := ProcessToolCall(
          calls[i], existing, continuations, completed != map[], interruptedOne, all, |calls|);
        if f != LoopContinue {
          return;
        }
        t := ProgressGoesOn(callIds, i, found, t, one, log, start, k, before, hs, cs,
          more, interruptedOne, store.log, all.Keys, HandleIds(asyncHandles), AsyncOf(store.disk, k));
        done := done + 1;
        AtStepFacts(store.disk, ts, chain, store.IsCalm());
      }
      AtStepFacts(store.disk, ts, chain, store.IsCalm());
      ProgressFacts(callIds, done, found, t, interruptedOne, store.log, start, k, all.Keys, HandleIds(asyncHandles),
        AsyncOf(store.disk, k));
      f := LoopContinue;
    }

    /** runToolsPhase: every call of the step reaches a persisted result, a live
        async handle, or an approval pause; only then does the step end. */
    method RunToolsPhase() returns (f: Flow)
      requires ts.phase == Tools && store.Valid() && AtStep(store.disk, ts, chain, store.IsCalm())
      modifies this, store
      ensures store.Valid() && store.turns == old(store.turns) && old(store.log) <= store.log
      ensures Savable(store.disk, ts, chain)
      ensures store.IsCalm() ==> old(store.IsCalm()) && (f == LoopContinue || f == LoopDone)
      ensures f == LoopContinue ==> ToolsPhaseLeft(store.disk, old(StepKey(ts)), ts, chain, store.IsCalm(), asyncHandles)
      ensures f == LoopDone ==>
        || Asking(store.disk, ts, chain, store.IsCalm())
        || (cancelled && StepCancelled(store.disk, ts, chain, store.IsCalm()))
    {
      hide LegalRun, Consistent, AtStep, Answered, Savable, StepMessage, ExecutorCalls, CallIds, CalmStep, Worked,
        HandlesOpen, KnownContinuations, ToolsPhaseLeft, HandleIds, Accounted, LastAdded, store.Valid, store.IsCalm;
      store.DiskConsistent();
      AtStepFacts(store.disk, ts, chain, store.IsCalm());
      var k := StepKey(ts);
      StepMessageSaved(store.disk, k);
      var calls := ExtractToolCalls(store.disk.messages[store.disk.results[k].assistantId].msg);
      var completed := LoadCompletedToolResults(store.disk, k);
      var continuations := AsyncOf(store.disk, k);
      var existing := IndexContinuations(continuations);
      asyncHandles := [];
      if store.IsCalm() {
        store.LogEndsHere();
        CalmCalls(store.log, store.disk, ts, chain);
      }
      var all;
      ghost var t;
      f, all, t := RunToolCalls(calls, existing, continuations, completed);
      if f != LoopContinue {
        return;
      }
      AtStepFacts(store.disk, ts, chain, store.IsCalm());
      f := FinalizeToolsPhase(calls, all);
    }

    /** Closes the waiting phase: whatever still lacks a result is recorded as
        interrupted, then the turn moves on. */
    method FinalizeWaitingForAsyncPhase(calls: seq<Part>, allResults: map<string, Part>) returns (f: Flow)
      requires store.Valid() && AtStep(store.disk, ts, chain, store.IsCalm())
      requires calls == ExecutorCalls(StepMessage(store.disk, StepKey(ts)).parts)
      requires allResults.Keys == Answered(store.disk, StepKey(ts))
      modifies this`ts, this`chain, this`maxSteps, store
      ensures store.Valid() && store.turns == old(store.turns) && old(store.log) <= store.log
      ensures Savable(store.disk, ts, chain)
      ensures f != LoopDone && (store.IsCalm() ==> old(store.IsCalm()) && f == LoopContinue)
      ensures f == LoopContinue ==> AtNextStep(store.disk, old(StepKey(ts)), ts, chain, store.IsCalm())
      ensures f == LoopContinue ==> ErrorsListed(old(store.disk), store.disk, old(StepKey(ts)), INTERRUPTED)
    {
      hide LegalRun, Consistent, AtStep, Answered, Savable, StepMessage, ExecutorCalls, CallIds, CalmStep, AtNextStep,
        Worked, Prepared, OwnError, ErrorsListed, Carries, store.Valid, store.IsCalm;
      var all := allResults;
      AtStepFacts(store.disk, ts, chain, store.IsCalm());
      ghost var m := StepMessage(store.disk, StepKey(ts));
      CallIdsAreCalls(m);
      NoneListed(store.disk, StepKey(ts), INTERRUPTED);
      for i := 0 to |calls|
        invariant store.Valid() && store.turns == old(store.turns) && old(store.log) <= store.log
        invariant ts == old(ts).(leaf := ts.leaf)
        invariant AtStep(store.disk, ts, chain, store.IsCalm())
        invariant StepKey(ts) in store.disk.results && StepMessage(store.disk, StepKey(ts)) == m
        invariant store.IsCalm() ==> old(store.IsCalm())
        invariant all.Keys == Answered(store.disk, StepKey(ts))
        invariant forall j :: 0 <= j < i ==> calls[j].callId in all
        invariant ErrorsListed(old(store.disk), store.disk, StepKey(ts), INTERRUPTED)
      {
        var tc := calls[i];
        if tc.callId in all {
          continue;
        }
        ghost var d, t, ids := store.disk, ts, chain;
        AtStepFacts(d, t, ids, store.IsCalm());
        assert tc.callId in CallIds(m) && tc.callId in Unresolved(d, StepKey(t));
        LoopErrors(tc.callId, tc.toolName);
        store.DiskConsistent();
        ghost var p := Recorded(ErrorResult(tc.callId, tc.toolName, INTERRUPTED), all, |calls|);
        PreparedCarries(maxSteps, reminder, ts.step, ErrorResult(tc.callId, tc.toolName, INTERRUPTED), all, |calls|);
        var o;
        o, all := RecordResult(ErrorResult(tc.callId, tc.toolName, INTERRUPTED), all, |calls|);
        WorkedFacts(d, t, store.disk, ts, ids);
        ErrorListed(old(store.disk), d, store.disk, t, ts, tc.callId, tc.toolName, INTERRUPTED, p, o == Written);
        AtStepFacts(store.disk, ts, chain, store.IsCalm());
        if o != Written {
          return FlowOf(o);
        }
      }
      AtStepFacts(store.disk, ts, chain, store.IsCalm());
      assert Unresolved(store.disk, StepKey(ts)) == {};
      ghost var d, k := store.disk, StepKey(ts);
      var o := AdvanceToNextStep();
      RecordListsNothing(old(store.disk), d, store.disk.turn, k, INTERRUPTED);
      f := if o == Written then LoopContinue else FlowOf(o);
    }

    /** After a restart the live handles are gone: rebuild them from the async
        index, one continuation at a time. */
    method RecoverHandles(continuations: seq<Continuation>, allResults: map<string, Part>, total: nat)
      returns (f: Flow, all: map<string, Part>)
      requires store.Valid() && AtStep(store.disk, ts, chain, store.IsCalm()) && asyncHandles == []
      requires allResults.Keys == Answered(store.disk, StepKey(ts)) && continuations == AsyncOf(store.disk, StepKey(ts))
      requires store.IsCalm() ==> KnownContinuations(continuations, KnownIds(store.disk, StepKey(ts)))
      requires store.IsCalm() ==> forall i :: 0 <= i < |continuations| ==>
        continuations[i].callId in CallIds(StepMessage(store.disk, StepKey(ts))) + allResults.Keys
      modifies this`ts, this`chain, this`maxSteps, this`asyncHandles, store
      ensures store.Valid() && store.turns == old(store.turns) && old(store.log) <= store.log
      ensures Savable(store.disk, ts, chain)
      ensures store.IsCalm() ==> old(store.IsCalm()) && (f == LoopContinue || f == LoopDone)
      ensures f == LoopDone ==> Asking(store.disk, ts, chain, store.IsCalm())
      ensures f == LoopContinue ==>
        && AtStep(store.disk, ts, chain, store.IsCalm()) && StepKey(ts) == old(StepKey(ts))
        && StepMessage(store.disk, StepKey(ts)) == StepMessage(old(store.disk), StepKey(ts))
        && all.Keys == Answered(store.disk, StepKey(ts))
        && (forall i :: 0 <= i < |continuations| ==> continuations[i].callId in all.Keys + HandleIds(asyncHandles))
        && (store.IsCalm() ==> HandlesOpen(store.disk, StepKey(ts), asyncHandles))
    {
      hide LegalRun, Consistent, Resumable, AtStep, Answered, Savable, StepMessage, CallIds, CalmStep, Worked,
        HandlesOpen, HandleIds, OneMore, Asking, KnownIds, DealtWith, KnownContinuations, PausedOn, Recorded, ResultOf,
        WithResult, Said, FlowOf, store.Valid, store.IsCalm;
      all := allResults;
      AtStepFacts(store.disk, ts, chain, store.IsCalm());
      NoHandles(store.disk, StepKey(ts));
      ghost var cids := IdsOfContinuations(continuations);
      NoneDealtWith(cids, all.Keys);
      if store.IsCalm() {
        KnownAreDistinct(continuations, KnownIds(store.disk, StepKey(ts)));
      }
      ghost var m := StepMessage(store.disk, StepKey(ts));
      ghost var reply;
      for i := 0 to |continuations|
        invariant store.Valid() && store.turns == old(store.turns) && old(store.log) <= store.log
        invariant ts == old(ts).(leaf := ts.leaf)
        invariant AtStep(store.disk, ts, chain, store.IsCalm())
        invariant StepKey(ts) in store.disk.results && StepMessage(store.disk, StepKey(ts)) == m
        invariant store.IsCalm() ==> old(store.IsCalm()) && HandlesOpen(store.disk, StepKey(ts), asyncHandles)
        invariant all.Keys == Answered(store.disk, StepKey(ts)) && allResults.Keys <= all.Keys
        invariant AsyncOf(store.disk, StepKey(ts)) == continuations
        invariant DealtWith(cids, i, all.Keys, HandleIds(asyncHandles))
      {
        var at := continuations[i];
        ghost var d, t, ids, hs := store.disk, ts, chain, asyncHandles;
        if at.callId in all {
          OneMoreDealtWith(cids, i, all.Keys, HandleIds(hs), all.Keys, HandleIds(hs));
          continue;
        }
        AtStepFacts(d, t, ids, store.IsCalm());
        ListedIsResumable(store.disk, StepKey(ts), at);
        f, all, reply := HandleRecoveredAsync(at, WaitingForAsync, "async continuation lost after restart: ", all, total);
        if f != LoopContinue {
          return;
        }
        AtStepFacts(store.disk, ts, chain, store.IsCalm());
        WorkedFacts(d, t, store.disk, ts, ids);
        OneTakenUp(d, store.disk, StepKey(ts), cids, i, hs, asyncHandles);
      }
      AtStepFacts(store.disk, ts, chain, store.IsCalm());
      AllDealtWith(cids, all.Keys, HandleIds(asyncHandles));
      f := LoopContinue;
    }

    /** runWaitingForAsyncPhase */
    method RunWaitingForAsyncPhase() returns (f: Flow)
      requires store.Valid() && AtStep(store.disk, ts, chain, store.IsCalm())
      requires store.IsCalm() ==> HandlesReady(store.disk, StepKey(ts), asyncHandles)
      modifies this, store
      ensures store.Valid() && store.turns == old(store.turns) && old(store.log) <= store.log
      ensures Savable(store.disk, ts, chain)
      ensures store.IsCalm() ==> old(store.IsCalm()) && (f == LoopContinue || f == LoopDone)
      ensures f == LoopContinue ==> AtNextStep(store.disk, old(StepKey(ts)), ts, chain, store.IsCalm())
      ensures f == LoopDone ==> Asking(store.disk, ts, chain, store.IsCalm())
    {
      hide LegalRun, Consistent, AtStep, Answered, Savable, StepMessage, ExecutorCalls, CallIds, CalmStep, Worked,
        HandlesOpen, HandleIds, AtNextStep, Awaitable, HandlesReady, StrayAnswered, OpenCall, Unresolved, Asking,
        PausedOn, AsksFor, store.Valid, store.IsCalm;
      store.DiskConsistent();
      AtStepFacts(store.disk, ts, chain, store.IsCalm());
      var k := StepKey(ts);
      StepMessageSaved(store.disk, k);
      var calls := ExtractToolCalls(store.disk.messages[store.disk.results[k].assistantId].msg);
      var all := LoadCompletedToolResults(store.disk, k);
      if store.IsCalm() {
        ReadyFacts(store.disk, k, asyncHandles);
      }
      if |asyncHandles| == 0 {
        if store.IsCalm() {
          store.LogEndsHere();
          CalmCalls(store.log, store.disk, ts, chain);
        }
        f, all := RecoverHandles(AsyncOf(store.disk, k), all, |calls|);
        if f != LoopContinue {
          return;
        }
      }
      AtStepFacts(store.disk, ts, chain, store.IsCalm());
      if |asyncHandles| > 0 {
        OpenIsAwaitable(store.disk, k, asyncHandles);
        ghost var asking;
        f, all, asking := FlushHandles(WaitingForAsync, all, |calls|);
        if f != LoopContinue {
          return;
        }
      }
      f := FinalizeWaitingForAsyncPhase(calls, all);
    }

    /** Leaves the answer phase for `phase` within the same step. */
    method EnterPhase(phase: ResumePhase) returns (f: Flow)
      requires store.Valid() && AtStep(store.disk, ts, chain, store.IsCalm())
      requires store.IsCalm() ==> HandlesReady(store.disk, StepKey(ts), asyncHandles)
      modifies this`ts, store`disk, store`log, store`turns
      ensures store.Valid() && store.turns == old(store.turns) && old(store.log) <= store.log
      ensures Savable(store.disk, ts, chain)
      ensures f != LoopDone && (store.IsCalm() ==> old(store.IsCalm()) && f == LoopContinue)
      ensures f == LoopContinue ==>
        && BackAtWork(store.disk, old(StepKey(ts)), ts, chain, store.IsCalm(), asyncHandles) && ts.phase == phase
        && store.disk == old(store.disk).(turn := Some(ts)) && ts == old(ts).(phase := phase, pending := "")
        && Answered(store.disk, StepKey(ts)) == Answered(old(store.disk), StepKey(ts))
    {
      hide LegalRun, Consistent, AtStep, Answered, Savable, StepMessage, CalmStep, store.Valid, store.IsCalm;
      ghost var d, calm := store.disk, store.IsCalm();
      AtStepFacts(d, ts, chain, calm);
      PhaseChanged(d, ts, chain, calm, phase, "");
      ts := ts.(phase := phase, pending := "");
      AtStepFacts(d, ts, chain, calm);
      var o := SaveTurn();
      if o != Written {
        return FlowOf(o);
      }
      SavedAtStep(d, ts, chain, calm);
      AtStepFacts(store.disk, ts, chain, calm);
      if calm {
        RecordKeepsHandles(d, Some(ts), StepKey(ts), asyncHandles);
      }
      f := LoopContinue;
    }

    /** runWaitingForAnswerPhase: without an answer the turn stays asleep;
        with one, the asking tool is continued and the turn goes back to the
        phase it was taken from. */
    method RunWaitingForAnswerPhase() returns (f: Flow)
      requires store.Valid() && Asking(store.disk, ts, chain, store.IsCalm()) && asyncHandles == []
      modifies this, store
      ensures store.Valid() && store.turns == old(store.turns) && old(store.log) <= store.log
      ensures Savable(store.disk, ts, chain)
      ensures store.IsCalm() ==> old(store.IsCalm()) && f != LoopDied
      ensures f == LoopStop ==> Stopped(store.disk, ts, chain, store.IsCalm())
      ensures f == LoopDone ==> Asking(store.disk, ts, chain, store.IsCalm())
      ensures f == LoopContinue ==>
        BackAtWork(store.disk, old(StepKey(ts)), ts, chain, store.IsCalm(), asyncHandles)
      ensures old(Asleep(store.disk, ts)) ==> f == LoopDone && store.disk == old(store.disk) && ts == old(ts)
    {
      hide LegalRun, Consistent, AtStep, Answered, Savable, StepMessage, ExecutorCalls, CallIds, CalmStep, Worked,
        HandlesOpen, HandleIds, BackAtWork, Stopped, LegalEvent, Awaitable, HandlesReady, StrayAnswered, Unresolved,
        KnownIds, CallsRecorded, WithToolEvent, WithResult, Recorded, PausedOn, Said, store.Valid, store.IsCalm;
      store.DiskConsistent();
      AtStepFacts(store.disk, ts, chain, store.IsCalm());
      var k, ask := StepKey(ts), AskKey(ts.id, ts.pending);
      if ask !in store.disk.answers {
        return LoopDone;
      }
      store.AnswersAreToQuestions();
      var question, answer := store.disk.questions[ask], store.disk.answers[ask];
      var call := FindCall(store.disk.results[k].calls, question.callId);
      if store.IsCalm() {
        AskedCallIsRecorded(store.disk, ts, chain, question.callId);
      }
      assert ContinuesAnswered(store.disk, k, call.callId);
      var all := LoadCompletedToolResults(store.disk, k);
      ghost var was := chain;
      var o := AppendResponse(question, call.callId);
      AtStepFacts(store.disk, ts, chain, store.IsCalm());
      NotCalmStops(store.disk, ts, chain);
      if o != Written {
        return FlowOf(o);
      }
      ghost var reply;
      f, reply := ContinueAnswered(call, question, answer, all, was);
    }

    /** The response to the answered question, as a tool message of the step. */
    method AppendResponse(question: Question, ghost callId: string) returns (o: Outcome)
      requires store.Valid() && Asking(store.disk, ts, chain, store.IsCalm())
      requires ContinuesAnswered(store.disk, StepKey(ts), callId)
      requires store.IsCalm() ==> OpenCall(store.disk, StepKey(ts), callId)
      modifies this`ts, this`chain, store
      ensures store.Valid() && store.turns == old(store.turns) && old(store.log) <= store.log
      ensures AtStep(store.disk, ts, chain, store.IsCalm()) && ts == old(ts).(leaf := ts.leaf)
      ensures o == Written || o == Failed || o == Died
      ensures store.IsCalm() ==> old(store.IsCalm()) && o == Written
      ensures o == Written ==>
        && store.disk == WithToolEvent(old(store.disk), StepKey(ts), ts.leaf, Stored(old(ts.leaf), "", Plain(Tool,
             [ApprovalResponsePart(question.callId, ts.pending, true, "")])))
        && ContinuesAnswered(store.disk, StepKey(ts), callId) && AskedBy(store.disk) == AskedBy(old(store.disk))
        && (forall answer :: old(ContinuesWith(store.disk, question.continuation, answer)) ==>
              ContinuesWith(store.disk, question.continuation, answer))
        && store.disk.results == old(store.disk.results)
        && Answered(store.disk, StepKey(ts)) == Answered(old(store.disk), StepKey(ts))
      ensures o == Written && store.IsCalm() ==>
        OpenCall(store.disk, StepKey(ts), callId) && Asking(store.disk, store.disk.turn.value, old(chain), true)
    {
      hide LegalRun, Consistent, AtStep, Answered, Savable, StepMessage, CallIds, CalmStep, Worked, CallsRecorded,
        KnownIds, store.Valid, store.IsCalm;
      ghost var d, t, ids := store.disk, ts, chain;
      store.DiskConsistent();
      AtStepFacts(d, t, ids, store.IsCalm());
      var response := ApprovalResponsePart(question.callId, ts.pending, true, "");
      assert OwnParts(d, StepKey(t), [response]);
      o := AppendStepToolEvent([response]);
      AtStepFacts(store.disk, ts, chain, store.IsCalm());
      WorkedFacts(d, t, store.disk, ts, ids);
      if store.IsCalm() {
        ResponseKeepsRecord(d, t, ids, ts.leaf, response);
      }
    }

    /** executor.Continue with the answer, and what follows from its reply. */
    method ContinueAnswered(
      call: CallInfo, question: Question, answer: string, allResults: map<string, Part>, ghost was: seq<string>)
      returns (f: Flow, ghost reply: Reply)
      requires store.Valid() && AtStep(store.disk, ts, chain, store.IsCalm()) && asyncHandles == []
      requires allResults.Keys == Answered(store.disk, StepKey(ts))
      requires ContinuesAnswered(store.disk, StepKey(ts), call.callId) && ts.phase == WaitingForAnswer
      requires ContinuesWith(store.disk, question.continuation, answer)
      requires store.IsCalm() ==>
        && OpenCall(store.disk, StepKey(ts), call.callId)
        && (if store.disk.results[StepKey(ts)].calls == [] then call.callId == "" else call.callId == AskedBy(store.disk))
        && Asking(store.disk, store.disk.turn.value, was, true)
      modifies this, store
      ensures store.Valid() && store.turns == old(store.turns) && old(store.log) <= store.log
      ensures Savable(store.disk, ts, chain)
      ensures store.IsCalm() ==> old(store.IsCalm()) && f != LoopDied
      ensures f == LoopStop ==> Stopped(store.disk, ts, chain, store.IsCalm())
      ensures f == LoopDone ==> Asking(store.disk, ts, chain, store.IsCalm())
      ensures f == LoopDone ==>
        && reply.NeedsApproval?
        && PausedOn(store.disk, ts, PauseOf(call.callId, question.continuation, reply), question.resumePhase)
      ensures f == LoopContinue ==>
        && BackAtWork(store.disk, old(StepKey(ts)), ts, chain, store.IsCalm(), asyncHandles)
        && if asyncHandles == [] then call.callId in Answered(store.disk, StepKey(ts)) && ts.phase == question.resumePhase
           else ts.phase == WaitingForAsync && |asyncHandles| == 1 && asyncHandles[0].callId == call.callId
      ensures reply.Replied? ==> IsResultFor(reply.result, call.callId)
      ensures old(store.log)
        + [Event(Continued(old(StepKey(ts)), call.callId, question.continuation, answer), old(store.disk))]
        + Said(old(StepKey(ts)), call.callId, reply, old(store.disk)) <= store.log
      ensures f == LoopContinue ==>
        if asyncHandles == []
        then reply.Replied?
             && store.disk == WithResult(old(store.disk), old(ts), ts.leaf,
                  old(Recorded(reply.result, allResults, |store.disk.results[StepKey(ts)].calls|))).(turn := Some(ts))
        else reply.GoesAsync? && asyncHandles[0].payload == reply.payload
    {
      hide LegalRun, Consistent, AtStep, Answered, Savable, StepMessage, ExecutorCalls, CallIds, CalmStep, Worked,
        HandlesOpen, HandleIds, BackAtWork, Asking, ContinuesAnswered, Stopped, StoppedAnswering, AskedBy, LegalEvent,
        Recorded, WithResult, GrantsCredentials, OpenCall, store.Valid, store.IsCalm, store.Sound, store.MayRecord;
      AtStepFacts(store.disk, ts, chain, store.IsCalm());
      NoteContinued(call.callId, question.continuation, answer);
      var next := Answer(call.callId, true);
      reply := next;
      var unreadable := *;
      if next.Fails? || (next.Replied? && unreadable && GrantsCredentials(next.result)) {
        store.Fail();
        StoppedWhileAnswering(store.disk, ts, chain, store.IsCalm(), call.callId, was);
        return LoopStop, next;
      }
      if next.NeedsApproval? {
        f := PauseForApproval(call.callId, question.resumePhase,
          if next.continuation == "" then question.continuation else next.continuation);
        NotCalmStops(store.disk, ts, chain);
        return;
      }
      if next.GoesAsync? {
        f := GoAsyncAfterAnswer(call, next.payload);
        NotCalmStops(store.disk, ts, chain);
        return;
      }
      assert next.result == ResultOf(call.callId, "", "", next);
      f := RecordAnswered(next.result, question.resumePhase, allResults);
      NotCalmStops(store.disk, ts, chain);
    }

    /** The answered tool has a result: back to the phase that it was taken from. */
    method RecordAnswered(result: Part, phase: ResumePhase, allResults: map<string, Part>) returns (f: Flow)
      requires result.ToolResultPart? && store.MayRecord(StepKey(ts), result) && asyncHandles == []
      requires AtStep(store.disk, ts, chain, store.IsCalm()) && allResults.Keys == Answered(store.disk, StepKey(ts))
      requires store.IsCalm() ==>
        && OpenCall(store.disk, StepKey(ts), result.callId)
        && (store.disk.results[StepKey(ts)].calls == [] ==> result.callId == "")
      modifies this`ts, this`chain, this`maxSteps, store
      ensures store.Valid() && store.turns == old(store.turns) && old(store.log) <= store.log
      ensures Savable(store.disk, ts, chain)
      ensures f != LoopDone && (store.IsCalm() ==> old(store.IsCalm()) && f == LoopContinue)
      ensures f == LoopContinue ==>
        && BackAtWork(store.disk, old(StepKey(ts)), ts, chain, store.IsCalm(), asyncHandles)
        && result.callId in Answered(store.disk, StepKey(ts)) && ts.phase == phase
        && store.disk == WithResult(old(store.disk), old(ts), ts.leaf,
             old(Recorded(result, allResults, |store.disk.results[StepKey(ts)].calls|))).(turn := Some(ts))
    {
      hide LegalRun, Consistent, AtStep, Answered, Savable, StepMessage, CallIds, CalmStep, Worked, HandlesReady,
        BackAtWork, Prepared, store.Valid, store.IsCalm, store.Sound, store.MayRecord;
      ghost var d, t, ids := store.disk, ts, chain;
      AtStepFacts(d, t, ids, store.IsCalm());
      var o, all := RecordResult(result, allResults, |store.disk.results[StepKey(ts)].calls|);
      AtStepFacts(store.disk, ts, chain, store.IsCalm());
      WorkedFacts(d, t, store.disk, ts, ids);
      if o != Written {
        return FlowOf(o);
      }
      if store.IsCalm() {
        StraysAnswered(store.disk, ts, chain);
      }
      f := EnterPhase(phase);
    }

    ghost method NoteContinued(callId: string, continuation: string, answer: string)
      requires store.Valid() && ContinuesAnswered(store.disk, StepKey(ts), callId)
      requires ContinuesWith(store.disk, continuation, answer)
      requires AtStep(store.disk, ts, chain, store.IsCalm())
      requires store.IsCalm() ==>
        && OpenCall(store.disk, StepKey(ts), callId)
        && (store.disk.results[StepKey(ts)].calls != [] ==> callId == AskedBy(store.disk))
      modifies store`log
      ensures store.Valid() && (store.IsCalm() ==> old(store.IsCalm()))
      ensures store.log == old(store.log) + [Event(Continued(StepKey(ts), callId, continuation, answer), store.disk)]
    {
      hide LegalRun, Consistent, AtStep, Answered, CallsMatch, OpenCall, Disturbs;
      AtStepFacts(store.disk, ts, chain, store.IsCalm());
      if store.IsCalm() {
        ContinuedIsLegal(store.disk, ts, chain, callId);
      }
      store.Note(Continued(StepKey(ts), callId, continuation, answer));
    }

    /** The answered tool keeps running: one live handle, its continuation on
        disk, and the turn waits for it. */
    method GoAsyncAfterAnswer(call: CallInfo, payload: string) returns (f: Flow)
      requires store.Valid() && AtStep(store.disk, ts, chain, store.IsCalm())
      requires store.IsCalm() ==> OpenCall(store.disk, StepKey(ts), call.callId)
      modifies this, store
      ensures store.Valid() && store.turns == old(store.turns) && old(store.log) <= store.log
      ensures Savable(store.disk, ts, chain)
      ensures f != LoopDone && (store.IsCalm() ==> old(store.IsCalm()) && f == LoopContinue)
      ensures f == LoopContinue ==>
        && BackAtWork(store.disk, old(StepKey(ts)), ts, chain, store.IsCalm(), asyncHandles)
        && ts.phase == WaitingForAsync && asyncHandles == [Handle(call.callId, call.toolName, payload)]
        && exists i: nat ::
             UpsertedAt(AsyncOf(old(store.disk), StepKey(ts)), call, payload, AsyncOf(store.disk, StepKey(ts)), i)
    {
      hide LegalRun, Consistent, AtStep, Answered, Savable, StepMessage, CalmStep, BackAtWork, KnownContinuations,
        CallIds, UpsertedAt, HandlesReady, Awaitable, OpenCall, Unresolved, KnownIds, store.Valid, store.IsCalm;
      ghost var d, calm := store.disk, store.IsCalm();
      store.DiskFacts();
      AtStepFacts(d, ts, chain, calm);
      asyncHandles := [Handle(call.callId, call.toolName, payload)];
      if calm {
        store.LogEndsHere();
        CalmCalls(store.log, d, ts, chain);
        OpenIsKnown(d, StepKey(ts), call.callId);
      }
      var cs := UpsertContinuation(AsyncOf(store.disk, StepKey(ts)), call, payload);
      AsyncSaved(d, ts, chain, calm, cs);
      var o := store.SaveAsyncContinuations(StepKey(ts), cs);
      AtStepFacts(store.disk, ts, chain, if o == Written then calm else false);
      if o != Written {
        return FlowOf(o);
      }
      if calm {
        OneHandleReady(d, store.disk, StepKey(ts), asyncHandles);
      }
      ghost var i: nat :| UpsertedAt(AsyncOf(d, StepKey(ts)), call, payload, cs, i);
      f := EnterPhase(WaitingForAsync);
      assert f == LoopContinue ==>
        UpsertedAt(AsyncOf(old(store.disk), StepKey(ts)), call, payload, AsyncOf(store.disk, StepKey(ts)), i);
    }

    // ----- Streaming

    /** refreshTurnTools: a changed tool list is announced to the model. */
    method RefreshTurnTools() returns (f: Flow)
      requires store.Valid() && StreamReady(store.disk, ts, chain, store.IsCalm())
      modifies this`ts, this`chain, store
      ensures store.Valid() && store.turns == old(store.turns) && old(store.log) <= store.log
      ensures Savable(store.disk, ts, chain)
      ensures store.IsCalm() || f == LoopContinue ==> StreamReady(store.disk, ts, chain, store.IsCalm())
      ensures StepKey(ts) == old(StepKey(ts)) && store.disk.results == old(store.disk.results)
      ensures f == LoopContinue ==>
        || (store.disk == old(store.disk) && ts == old(ts))
        || (ts.leaf !in old(store.disk.messages)
            && store.disk == WithMessage(old(store.disk), ts.leaf, Stored(old(ts.leaf), "", ToolsChanged())).(turn := Some(ts)))
      ensures f != LoopDone && (store.IsCalm() ==> old(store.IsCalm()) && f != LoopDied)
    {
      hide LegalRun, Consistent, StreamReady, Savable, store.Valid, store.IsCalm;
      StreamReadyFacts(store.disk, ts, chain, store.IsCalm());
      var failed, changed := *, *;
      if failed {
        store.Fail();
        return LoopStop;
      }
      if !changed {
        return LoopContinue;
      }
      f := AnnounceTools();
    }

    /** The reminder goes under the leaf, and the record names it. */
    method AnnounceTools() returns (f: Flow)
      requires store.Valid() && StreamReady(store.disk, ts, chain, store.IsCalm())
      modifies this`ts, this`chain, store
      ensures store.Valid() && store.turns == old(store.turns) && old(store.log) <= store.log
      ensures Savable(store.disk, ts, chain) && ts == old(ts).(leaf := ts.leaf)
      ensures store.disk.results == old(store.disk.results)
      ensures f != LoopDone && (store.IsCalm() ==> old(store.IsCalm()) && f == LoopContinue)
      ensures f == LoopContinue ==>
        && StreamReady(store.disk, ts, chain, store.IsCalm()) && ts.leaf !in old(store.disk.messages)
        && store.disk == WithMessage(old(store.disk), ts.leaf, Stored(old(ts.leaf), "", ToolsChanged())).(turn := Some(ts))
    {
      hide LegalRun, Consistent, StreamReady, Savable, WithMessage, ToolsChanged, Grounded, IsChain, store.Valid,
        store.IsCalm;
      ghost var d, t, ids, calm := store.disk, ts, chain, store.IsCalm();
      StreamReadyFacts(d, t, ids, calm);
      store.DiskGrounded();
      var o := AppendMessage(ToolsChanged());
      if o != Written {
        return FlowOf(o);
      }
      ghost var stored := Stored(t.leaf, "", ToolsChanged());
      OnlyMessageSaved(d, ts.leaf, stored);
      ReminderSaved(d, t, ids, calm, ts.leaf, stored);
      o := SaveTurn();
      if o != Written {
        return FlowOf(o);
      }
      StreamReadyFacts(store.disk, ts, chain, calm);
      f := LoopContinue;
    }

    /** The provider's stream, written to the step file chunk by chunk and read
        by the accumulator as it comes. */
    method StreamToFile(acc: ChunkAccumulator) returns (o: Outcome, broken: Option<ProviderError>)
      requires store.Valid() && AtStart(store.disk, ts, chain, store.IsCalm())
      requires sent == [] && acc.State() == INITIAL && !acc.closed && Accumulator.Valid(acc.State())
      modifies acc, this`sent, store`disk, store`log, store`turns
      ensures store.Valid() && store.turns == old(store.turns) && old(store.log) <= store.log
      ensures AtStart(store.disk, ts, chain, store.IsCalm())
      ensures store.disk == old(store.disk).(chunks := store.disk.chunks)
      ensures o == Written || o == Failed || o == Died
      ensures store.IsCalm() ==> old(store.IsCalm()) && o == Written
      ensures !acc.closed && Accumulator.Valid(acc.State())
      ensures o == Written ==>
        && StepKey(ts) in store.disk.chunks && store.disk.chunks[StepKey(ts)] == sent
        && acc.State() == Accumulate(INITIAL, sent)
    {
      hide LegalRun, Consistent, AtStart, store.Valid, store.IsCalm, AfterChunk;
      broken := None;
      var k := StepKey(ts);
      var written: seq<Chunk> := [];
      ghost var d, calm := store.disk, store.IsCalm();
      o := store.SaveStepChunks(k, []);
      ChunksSaved(d, ts, chain, calm, store.disk.chunks);
      AtStartFacts(store.disk, ts, chain, calm);
      if o != Written {
        return;
      }
      var count :| 0 <= count;
      for i := 0 to count
        invariant store.Valid() && store.turns == old(store.turns) && old(store.log) <= store.log
        invariant AtStart(store.disk, ts, chain, store.IsCalm())
        invariant store.disk == old(store.disk).(chunks := store.disk.chunks)
        invariant store.IsCalm() ==> old(store.IsCalm())
        invariant o == Written && !acc.closed && Accumulator.Valid(acc.State())
        invariant k in store.disk.chunks && store.disk.chunks[k] == written && written == sent
        invariant acc.State() == Accumulate(INITIAL, written)
      {
        var chunk := NextChunk();
        AccumulateSnoc(INITIAL, written, chunk);
        written := written + [chunk];
        d, calm := store.disk, store.IsCalm();
        o := store.SaveStepChunks(k, written);
        ChunksSaved(d, ts, chain, calm, store.disk.chunks);
        AtStartFacts(store.disk, ts, chain, calm);
        if o != Written {
          return;
        }
        acc.Push(chunk);
      }
      broken := *;
    }

    /** runCompletion: one provider call. Only a stream that ended well, or one
        that the user cancelled, leaves a step result. */
    method RunCompletion(idOverride: string, replacesId: string)
      returns (c: Completion, partialId: string, ghost broken: Option<ProviderError>)
      requires store.Valid() && AtStart(store.disk, ts, chain, store.IsCalm())
      requires StepKey(ts) !in store.disk.results
      modifies this`cancelled, this`asked, this`sent, store
      ensures asked == old(asked) + 1 && (old(cancelled) ==> cancelled)
      ensures store.Valid() && store.turns == old(store.turns) && old(store.log) <= store.log
      ensures store.IsCalm() ==> old(store.IsCalm()) && !c.ProcessDied?
      ensures c.ReplyOnDisk? ==>
        && AtResult(store.disk, ts, chain, store.IsCalm()) && store.disk.results[StepKey(ts)].assistantId == ""
        && store.disk.results[StepKey(ts)].assistant.role == Assistant
      ensures c.ReplyOnDisk? ==>
        && StepKey(ts) in store.disk.results && FromStream(store.disk, StepKey(ts))
        && if broken.None? then IsStreamed(store.disk, StepKey(ts)) && store.disk.chunks[StepKey(ts)] == sent
           else cancelled && CallIds(store.disk.results[StepKey(ts)].assistant) == {}
      ensures c.ReplyOnDisk? && broken.None? ==>
        && store.disk.results[StepKey(ts)].replacesId == replacesId
        && (idOverride != "" ==> store.disk.results[StepKey(ts)].assistant.id == idOverride)
      ensures c.Broken? && c.error.PartialResponse? && idOverride != "" ==> partialId == idOverride
      ensures old(store.issued) <= store.issued
      ensures !c.ReplyOnDisk? ==>
        AtStart(store.disk, ts, chain, store.IsCalm()) && store.disk.results == old(store.disk.results)
    {
      hide LegalRun, Consistent, AtStart, AtResult, store.Valid, store.IsCalm, StreamParts, CallIds, ExecutorCalls;
      AtStartFacts(store.disk, ts, chain, store.IsCalm());
      CallProvider();
      var o, end, msg := StreamReply();
      broken, partialId := end, "";
      AtStartFacts(store.disk, ts, chain, store.IsCalm());
      if o == Died {
        c := ProcessDied;
        return;
      }
      if end.None? {
        var reply := if idOverride != "" then msg.(id := idOverride) else msg;
        assert reply.parts == msg.parts && reply.role == Assistant;
        c := SaveReply(reply, replacesId);
        if c.ReplyOnDisk? {
          AtResultFacts(store.disk, ts, chain, store.IsCalm());
        }
      } else {
        c, partialId := EndBrokenStream(end.value, msg, idOverride);
        if c.ReplyOnDisk? {
          AtResultFacts(store.disk, ts, chain, store.IsCalm());
        }
      }
    }

    /** The message that the provider's stream meant. */
    method StreamReply() returns (o: Outcome, broken: Option<ProviderError>, msg: Message)
      requires store.Valid() && AtStart(store.disk, ts, chain, store.IsCalm()) && sent == []
      modifies this`sent, store`disk, store`log, store`turns
      ensures store.Valid() && store.turns == old(store.turns) && old(store.log) <= store.log
      ensures AtStart(store.disk, ts, chain, store.IsCalm())
      ensures store.disk == old(store.disk).(chunks := store.disk.chunks)
      ensures o == Written || o == Failed || o == Died
      ensures store.IsCalm() ==> old(store.IsCalm()) && o == Written
      ensures msg.role == Assistant
      ensures o == Failed ==> broken == Some(OtherError)
      ensures o == Written ==>
        StepKey(ts) in store.disk.chunks && store.disk.chunks[StepKey(ts)] == sent && StreamParts(sent, msg.parts)
    {
      hide LegalRun, Consistent, AtStart, store.Valid, store.IsCalm, Accumulate, PartlyClosed, Accumulator.Valid;
      var acc := new ChunkAccumulator();
      o, broken := StreamToFile(acc);
      if o == Failed {
        broken := Some(OtherError);
      }
      acc.Close();
      msg := acc.GetMessage();
    }

    /** A stream that broke off: a cancelled one leaves its text as the step
        result, a recoverable one is kept beside the history. */
    method EndBrokenStream(error: ProviderError, msg: Message, idOverride: string)
      returns (c: Completion, partialId: string)
      requires store.Valid() && AtStart(store.disk, ts, chain, store.IsCalm())
      requires StepKey(ts) !in store.disk.results && msg.role == Assistant
      modifies this`cancelled, store
      ensures store.Valid() && store.turns == old(store.turns) && old(store.log) <= store.log
      ensures store.IsCalm() ==> old(store.IsCalm()) && !c.ProcessDied?
      ensures c.ReplyOnDisk? ==>
        && AtResult(store.disk, ts, chain, store.IsCalm()) && store.disk.results[StepKey(ts)].assistantId == ""
        && store.disk.results[StepKey(ts)].assistant.role == Assistant
      ensures c.ReplyOnDisk? ==> cancelled && CallIds(store.disk.results[StepKey(ts)].assistant) == {}
      ensures c.ReplyOnDisk? ==> store.disk.results[StepKey(ts)].assistant.parts == ContentParts(msg.parts)
      ensures old(cancelled) ==> cancelled
      ensures c.Broken? && c.error.PartialResponse? && ContentParts(msg.parts) != [] ==>
        KeptBeside(old(store.disk), store.disk, ts.leaf, partialId, msg.(parts := ContentParts(msg.parts)))
      ensures idOverride != "" ==> partialId == idOverride
      ensures old(store.issued) <= store.issued
      ensures !c.ReplyOnDisk? ==>
        AtStart(store.disk, ts, chain, store.IsCalm()) && store.disk.results == old(store.disk.results)
    {
      hide LegalRun, Consistent, AtStart, AtResult, store.Valid, store.IsCalm, CallIds, ExecutorCalls, ContentParts,
        KeptBeside;
      AtStartFacts(store.disk, ts, chain, store.IsCalm());
      partialId := if idOverride != "" then idOverride else msg.id;
      var stopped := ContextErr();
      var kept := FilterContentParts(msg.parts);
      ContentHasNoCalls(msg.parts);
      if stopped && |kept| > 0 {
        c := SaveReply(msg.(parts := kept), "");
        return;
      }
      c := Broken(if stopped then OtherError else error);
      if !stopped && error.PartialResponse? && |kept| > 0 {
        var o;
        o, partialId := SavePartial(partialId, msg.(parts := kept));
        if o == Died || o == Failed {
          c := if o == Died then ProcessDied else Broken(OtherError);
        }
      }
    }

    /** provider.Complete is called only for a step without a result, and in an
        undisturbed run only on a tool-closed history. */
    ghost method CallProvider()
      requires store.Valid() && StepKey(ts) !in store.disk.results && store.disk.turn == Some(ts)
      requires store.IsCalm() ==> ClosedAt(store.disk, ts.leaf)
      modifies store`log, this`asked, this`sent
      ensures store.Valid() && old(store.log) <= store.log && (store.IsCalm() ==> old(store.IsCalm()))
      ensures asked == old(asked) + 1 && sent == []
    {
      asked, sent := asked + 1, [];
      store.Note(CalledProvider(StepKey(ts), ts.leaf));
    }

    method SaveReply(msg: Message, replacesId: string) returns (c: Completion)
      requires store.Valid() && AtStart(store.disk, ts, chain, store.IsCalm())
      requires StepKey(ts) !in store.disk.results && msg.role == Assistant
      modifies store`disk, store`log, store`turns
      ensures store.Valid() && store.turns == old(store.turns) && old(store.log) <= store.log
      ensures store.IsCalm() ==> old(store.IsCalm()) && c.ReplyOnDisk?
      ensures c.ReplyOnDisk? ==>
        && AtResult(store.disk, ts, chain, store.IsCalm()) && store.disk.results[StepKey(ts)].assistantId == ""
        && store.disk.results[StepKey(ts)].assistant == msg && store.disk.results[StepKey(ts)].replacesId == replacesId
        && store.disk.chunks == old(store.disk.chunks)
      ensures c.Broken? ==> c.error == OtherError
      ensures !c.ReplyOnDisk? ==> AtStart(store.disk, ts, chain, store.IsCalm()) && store.disk == old(store.disk)
    {
      hide LegalRun, Consistent, AtStart, AtResult, store.IsCalm, ExecutorCalls;
      ghost var d, calm := store.disk, store.IsCalm();
      AtStartFacts(d, ts, chain, calm);
      var calls := ExtractToolCalls(msg);
      var infos := ToCallInfos(calls);
      var r := StepResult("", replacesId, msg, infos);
      assert CallsMatch(r);
      var o := store.SaveStepResult(StepKey(ts), r);
      if o == Written {
        ReplySaved(d, ts, chain, calm, r);
        AtResultFacts(store.disk, ts, chain, calm);
        return ReplyOnDisk;
      }
      c := if o == Died then ProcessDied else Broken(OtherError);
    }

    /** savePartialAssistantMessage: the remains of a broken stream are kept
        beside the history; the leaf does not move. */
    method SavePartial(givenId: string, msg: Message) returns (o: Outcome, id: string)
      requires store.Valid() && AtStart(store.disk, ts, chain, store.IsCalm())
      requires CallIds(msg) == {}
      modifies store
      ensures store.Valid() && store.turns == old(store.turns) && old(store.log) <= store.log
      ensures AtStart(store.disk, ts, chain, store.IsCalm())
      ensures store.disk.results == old(store.disk.results) && old(store.issued) <= store.issued
      ensures givenId != "" ==> id == givenId
      ensures o == Written || o == Exists ==> KeptBeside(old(store.disk), store.disk, ts.leaf, id, msg)
      ensures store.IsCalm() ==> old(store.IsCalm()) && (o == Written || o == Exists)
    {
      hide LegalRun, Consistent, AtStart, store.Valid, store.IsCalm, CallIds, store.Sound, store.Owes, store.Awaits;
      ghost var d, calm := store.disk, store.IsCalm();
      AtStartFacts(d, ts, chain, calm);
      id := givenId;
      if id == "" {
        id := store.FreshId();
      }
      o := store.SaveMessage(id, Stored(ts.leaf, "", msg));
      if o == Written {
        PartialSaved(d, ts, chain, calm, id, Stored(ts.leaf, "", msg));
      }
      AtStartFacts(store.disk, ts, chain, calm);
    }

    /** runCompletionWithMaybeCompaction: a recoverable break or an overflowing
        context is tried once more, a break under a new message ID. */
    method RunCompletionWithRetry(idOverride: string)
      returns (c: Completion, ghost first: Completion, ghost broken: Option<ProviderError>, ghost partial: string)
      requires store.Valid() && AtStart(store.disk, ts, chain, store.IsCalm())
      requires StepKey(ts) !in store.disk.results
      modifies this`cancelled, this`asked, this`sent, store
      ensures old(asked) + 1 <= asked <= old(asked) + 2
      ensures if asked == old(asked) + 1 then c == first
              else first.Broken? && (first.error.PartialResponse? || first.error.ContextLength?)
      ensures store.Valid() && store.turns == old(store.turns) && old(store.log) <= store.log
      ensures store.IsCalm() ==> old(store.IsCalm()) && !c.ProcessDied?
      ensures c.ReplyOnDisk? ==>
        && AtResult(store.disk, ts, chain, store.IsCalm()) && store.disk.results[StepKey(ts)].assistantId == ""
        && store.disk.results[StepKey(ts)].assistant.role == Assistant && FromStream(store.disk, StepKey(ts))
      ensures c.ReplyOnDisk? && broken.Some? ==> cancelled
      ensures c.ReplyOnDisk? && broken.None? ==>
        var r := store.disk.results[StepKey(ts)];
        if first.Broken? && first.error.PartialResponse?
        then r.assistant.id != "" && r.assistant.id !in old(store.issued) && r.replacesId == partial
        else (idOverride != "" ==> r.assistant.id == idOverride) && r.replacesId == ""
      ensures first.Broken? && first.error.PartialResponse? && idOverride != "" ==> partial == idOverride
      ensures !c.ReplyOnDisk? ==>
        AtStart(store.disk, ts, chain, store.IsCalm()) && store.disk.results == old(store.disk.results)
    {
      hide LegalRun, Consistent, AtStart, AtResult, store.Valid, store.IsCalm, FromStream, ClosedAt;
      var partialId;
      c, partialId, broken := RunCompletion(idOverride, "");
      first, partial := c, partialId;
      if c.Broken? && c.error.PartialResponse? {
        var retryId := store.FreshId();
        c, partialId, broken := RunCompletion(retryId, partialId);
      } else if c.Broken? && c.error.ContextLength? {
        var compacted: bool := *;
        if compacted {
          c, partialId, broken := RunCompletion(idOverride, "");
        }
      }
    }

    /** saveAssistantStepMessage: the assistant message goes under the leaf, or
        a message that has its ID already is adopted; then the ID goes into the
        step result. The step runs the calls of the reply exactly when the ID was
        not taken by a message with other content; one that is taken elsewhere is
        an error. */
    method SaveAssistantStepMessage() returns (f: Flow)
      requires store.Valid() && AtResult(store.disk, ts, chain, store.IsCalm())
      requires store.disk.results[StepKey(ts)].assistantId == ""
      requires store.disk.results[StepKey(ts)].assistant.role == Assistant
      modifies this`ts, this`chain, store
      ensures store.Valid() && store.turns == old(store.turns) && old(store.log) <= store.log
      ensures Savable(store.disk, ts, chain)
      ensures f != LoopDone && (store.IsCalm() ==> old(store.IsCalm()) && f != LoopDied)
      ensures f == LoopContinue ==> AtReply(store.disk, ts, chain, store.IsCalm()) && StepKey(ts) == old(StepKey(ts))
      ensures f == LoopContinue ==>
        && StepKey(ts) in store.disk.results
        && store.disk.results[StepKey(ts)].assistant == old(store.disk.results[StepKey(ts)].assistant)
        && (StepMessage(store.disk, StepKey(ts)).parts == old(store.disk.results[StepKey(ts)].assistant.parts) <==>
              old(IdFree(store.disk, StepKey(ts))))
      ensures f == LoopStop && store.IsCalm() ==> store.disk == old(store.disk) && ts == old(ts) && chain == old(chain)
    {
      hide LegalRun, Consistent, AtResult, AtReply, Savable, store.Valid, store.IsCalm, MayName, IdFree, StepMessage;
      AtResultFacts(store.disk, ts, chain, store.IsCalm());
      f := PlaceAssistantMessage();
      if f != LoopContinue {
        return;
      }
      ghost var calm := store.IsCalm();
      store.DiskConsistent();
      store.TurnIsKnown();
      GroundedNames(store.disk);
      var k := StepKey(ts);
      FillingExactly(store.disk, k, ts.leaf);
      UnnamedMessage(store.disk, k);
      var o := store.SaveStepResult(k, store.disk.results[k].(assistantId := ts.leaf));
      if o == Written {
        AtReplyFacts(store.disk, ts, chain, calm);
        return LoopContinue;
      }
      f := FlowOf(o);
    }

    method PlaceAssistantMessage() returns (f: Flow)
      requires store.Valid() && AtResult(store.disk, ts, chain, store.IsCalm())
      requires store.disk.results[StepKey(ts)].assistantId == ""
      requires store.disk.results[StepKey(ts)].assistant.role == Assistant
      modifies this`ts, this`chain, store
      ensures store.Valid() && store.turns == old(store.turns) && old(store.log) <= store.log
      ensures Savable(store.disk, ts, chain)
      ensures f != LoopDone && (store.IsCalm() ==> old(store.IsCalm()) && f != LoopDied)
      ensures StepKey(ts) == old(StepKey(ts)) && store.disk.results == old(store.disk.results)
      ensures store.disk.turn == old(store.disk.turn)
      ensures f == LoopContinue ==>
        && ts.leaf in store.disk.messages && MayName(store.disk, StepKey(ts), ts.leaf)
        && (IdFree(store.disk, StepKey(ts)) <==> old(IdFree(store.disk, StepKey(ts))))
        && AtReply(WithAssistantId(store.disk, StepKey(ts), ts.leaf), ts, chain, store.IsCalm())
      ensures f == LoopStop && store.IsCalm() ==> store.disk == old(store.disk) && ts == old(ts) && chain == old(chain)
    {
      hide LegalRun, Consistent, AtResult, AtReply, Savable, store.Valid, store.IsCalm, Grounded, IsChain, WithAssistant,
        WithAssistantId, MayName, IdFree;
      store.DiskConsistent();
      store.DiskFacts();
      GroundedNames(store.disk);
      AtResultFacts(store.disk, ts, chain, store.IsCalm());
      var id := store.disk.results[StepKey(ts)].assistant.id;
      if id == "" {
        id := store.FreshId();
      }
      if id in store.disk.messages {
        f := AdoptAssistantMessage(id);
      } else {
        f := SaveNewAssistantMessage(id);
      }
    }

    /** ErrMessageExists: the message must sit under the same parent. */
    method AdoptAssistantMessage(id: string) returns (f: Flow)
      requires store.Valid() && AtResult(store.disk, ts, chain, store.IsCalm())
      requires store.disk.results[StepKey(ts)].assistantId == "" && id != "" && id in store.disk.messages
      requires id == store.disk.results[StepKey(ts)].assistant.id
      modifies this`ts, this`chain, store`log
      ensures store.Valid() && old(store.log) <= store.log
      ensures Savable(store.disk, ts, chain) && StepKey(ts) == old(StepKey(ts))
      ensures f == LoopContinue <==>
        store.disk.messages[id].parent == old(ts.leaf) && store.disk.messages[id].msg.role == Assistant
      ensures (f == LoopContinue || f == LoopStop) && (store.IsCalm() ==> old(store.IsCalm()))
      ensures f == LoopContinue ==>
        && ts.leaf == id && ts.leaf in store.disk.messages && MayName(store.disk, StepKey(ts), ts.leaf)
        && AtReply(WithAssistantId(store.disk, StepKey(ts), ts.leaf), ts, chain, store.IsCalm())
        && StepMessage(WithAssistantId(store.disk, StepKey(ts), id), StepKey(ts)) == store.disk.messages[id].msg
        && (store.disk.messages[id].msg.parts == store.disk.results[StepKey(ts)].assistant.parts <==>
              IdFree(store.disk, StepKey(ts)))
      ensures f == LoopStop ==> ts == old(ts) && chain == old(chain)
    {
      hide LegalRun, Consistent, AtResult, AtReply, Savable, store.Valid, store.IsCalm, WithAssistant, MayName;
      ghost var calm := store.IsCalm();
      AtResultFacts(store.disk, ts, chain, calm);
      if store.disk.messages[id].parent != ts.leaf || store.disk.messages[id].msg.role != Assistant {
        store.Fail();
        return LoopStop;
      }
      AssistantAdopted(store.disk, ts, chain, calm, id);
      AdoptedMayName(store.disk, ts, chain, id);
      ts := WithAssistant(ts, id);
      chain := chain + [id];
      f := LoopContinue;
    }

    method SaveNewAssistantMessage(id: string) returns (f: Flow)
      requires store.Valid() && AtResult(store.disk, ts, chain, store.IsCalm())
      requires store.disk.results[StepKey(ts)].assistantId == "" && id != "" && id !in store.disk.messages
      requires store.disk.results[StepKey(ts)].assistant.role == Assistant
      requires store.disk.results[StepKey(ts)].assistant.id == "" || id == store.disk.results[StepKey(ts)].assistant.id
      modifies this`ts, this`chain, store
      ensures store.Valid() && store.turns == old(store.turns) && old(store.log) <= store.log
      ensures Savable(store.disk, ts, chain)
      ensures f != LoopDone && (store.IsCalm() ==> old(store.IsCalm()) && f == LoopContinue)
      ensures StepKey(ts) == old(StepKey(ts)) && store.disk.results == old(store.disk.results)
      ensures store.disk.turn == old(store.disk.turn)
      ensures f == LoopContinue ==>
        && ts.leaf == id && store.disk == WithMessage(old(store.disk), id, StepMessageUnder(old(store.disk), old(ts)))
        && ts.leaf in store.disk.messages && store.disk.messages[id].parent == old(ts.leaf)
        && store.disk.messages[id].replacesId == store.disk.results[StepKey(ts)].replacesId
        && store.disk.messages[id].msg.parts == store.disk.results[StepKey(ts)].assistant.parts && MayName(store.disk, StepKey(ts), ts.leaf)
        && (IdFree(store.disk, StepKey(ts)) <==> old(IdFree(store.disk, StepKey(ts))))
        && AtReply(WithAssistantId(store.disk, StepKey(ts), ts.leaf), ts, chain, store.IsCalm())
    {
      hide LegalRun, Consistent, AtResult, AtReply, Savable, store.Valid, store.IsCalm, WithAssistant, WithAssistantId,
        Grounded, IsChain, WithMetadata, CalmStep, CallIds, StepMessage, Unresolved, Answered, MayName, IdFree;
      ghost var d, calm := store.disk, store.IsCalm();
      store.DiskGrounded();
      store.DiskConsistent();
      GroundedNames(d);
      AtResultFacts(d, ts, chain, calm);
      NewMayName(d, ts, id);
      var stored := StepMessageUnder(store.disk, ts);
      LeafExists(d, ts, chain);
      var o := store.SaveMessage(id, stored);
      if o != Written {
        return FlowOf(o);
      }
      NewReplySaved(d, ts, chain, calm, id);
      ts := WithAssistant(ts, id);
      chain := chain + [id];
      f := LoopContinue;
    }

    /** The provider is asked for the reply of the step; undisturbed, the turn can be
        taken up again however that ends. */
    method AskForReply() returns (f: Flow)
      requires store.Valid() && AtStart(store.disk, ts, chain, store.IsCalm()) && StepKey(ts) !in store.disk.results
      modifies this`cancelled, this`asked, this`sent, store
      ensures store.Valid() && store.turns == old(store.turns) && old(store.log) <= store.log
      ensures Savable(store.disk, ts, chain)
      ensures f != LoopDone && (store.IsCalm() ==> old(store.IsCalm()) && f != LoopDied)
      ensures f == LoopContinue || store.IsCalm() ==> StreamReady(store.disk, ts, chain, store.IsCalm())
      ensures f == LoopContinue ==> StepKey(ts) in store.disk.results && store.disk.results[StepKey(ts)].assistantId == ""
      ensures f == LoopContinue && asked == old(asked) + 1 && !cancelled && ts.step == 0 && ts.assistantId != "" ==>
        store.disk.results[StepKey(ts)].assistant.id == ts.assistantId
    {
      hide LegalRun, Consistent, AtStart, AtResult, StreamReady, Savable, FromStream, store.Valid, store.IsCalm;
      AtStartFacts(store.disk, ts, chain, store.IsCalm());
      var c;
      ghost var first, broken, partial;
      c, first, broken, partial := RunCompletionWithRetry(if ts.step == 0 then ts.assistantId else "");
      if !c.ReplyOnDisk? {
        AtStartFacts(store.disk, ts, chain, store.IsCalm());
        StartIsReady(store.disk, ts, chain, store.IsCalm());
        store.Fail();
        return if c.ProcessDied? then LoopDied else LoopStop;
      }
      AtResultFacts(store.disk, ts, chain, store.IsCalm());
      ResultIsReady(store.disk, ts, chain, store.IsCalm());
      f := LoopContinue;
    }

    /** The first half of the streaming phase: afterwards the step has a reply,
        and its assistant message is saved. */
    method EnsureReply() returns (f: Flow)
      requires store.Valid() && StreamReady(store.disk, ts, chain, store.IsCalm())
      modifies this`ts, this`chain, this`cancelled, this`asked, this`sent, store
      ensures store.Valid() && store.turns == old(store.turns) && old(store.log) <= store.log
      ensures Savable(store.disk, ts, chain)
      ensures f != LoopDone && (store.IsCalm() ==> old(store.IsCalm()) && f != LoopDied)
      ensures f == LoopContinue ==> AtReply(store.disk, ts, chain, store.IsCalm()) && StepKey(ts) == old(StepKey(ts))
      ensures f == LoopStop && store.IsCalm() ==> StreamReady(store.disk, ts, chain, true)
      ensures old(StepKey(ts) in store.disk.results) ==> asked == old(asked)
      ensures f == LoopContinue && asked == old(asked) + 1 && !cancelled && ts.step == 0 && old(ts.assistantId) != "" ==>
        StepKey(ts) in store.disk.results && store.disk.results[StepKey(ts)].assistant.id == old(ts.assistantId)
    {
      hide LegalRun, Consistent, AtStart, AtResult, AtReply, StreamReady, Savable, FromStream, store.Valid, store.IsCalm;
      store.DiskConsistent();
      StreamReadyFacts(store.disk, ts, chain, store.IsCalm());
      var resumed := StepKey(ts) in store.disk.results;
      if !resumed {
        f := AskForReply();
        if f != LoopContinue {
          return;
        }
        StreamReadyFacts(store.disk, ts, chain, store.IsCalm());
      }
      ghost var d := store.disk;
      var o := SaveTurn();
      if o != Written {
        return FlowOf(o);
      }
      assert store.disk == d;
      store.DiskConsistent();
      StreamReadyFacts(store.disk, ts, chain, store.IsCalm());
      if resumed && store.disk.results[StepKey(ts)].assistantId != "" {
        return LoopContinue;
      }
      f := SaveAssistantStepMessage();
    }

    /** runStreamingPhase: the provider is asked only when the step has no
        result yet; tool calls lead to the tools phase, their absence ends the
        turn. */
    method RunStreamingPhase() returns (f: Flow)
      requires store.Valid() && StreamReady(store.disk, ts, chain, store.IsCalm())
      modifies this`ts, this`chain, this`cancelled, this`asked, this`sent, store
      ensures store.Valid() && store.turns == old(store.turns) && old(store.log) <= store.log
      ensures Savable(store.disk, ts, chain)
      ensures store.IsCalm() ==> old(store.IsCalm()) && f != LoopDied
      ensures f == LoopStop ==> Stopped(store.disk, ts, chain, store.IsCalm())
      ensures f == LoopContinue ==>
        && AtStep(store.disk, ts, chain, store.IsCalm()) && store.disk.turn == Some(ts)
        && ts.phase == Tools && StepKey(ts) == old(StepKey(ts))
        && CallIds(StepMessage(store.disk, StepKey(ts))) != {}
      ensures f == LoopDone ==> StepEnded(store.disk, ts, chain, store.IsCalm()) && StepKey(ts) == old(StepKey(ts))
    {
      hide LegalRun, Consistent, StreamReady, AtStep, AtReply, Savable, store.Valid, store.IsCalm, StepMessage, CallIds,
        ExecutorCalls;
      f := RefreshTurnTools();
      if f != LoopContinue {
        return;
      }
      StreamReadyFacts(store.disk, ts, chain, store.IsCalm());
      HistoryExists();
      var history := BuildHistoryWithIDs(store.disk.messages, ts.leaf);
      assert history.History?;
      f := EnsureReply();
      if f != LoopContinue {
        return;
      }
      ghost var d, calm := store.disk, store.IsCalm();
      AtReplyFacts(d, ts, chain, calm);
      StepMessageSaved(d, StepKey(ts));
      var msg := store.disk.messages[store.disk.results[StepKey(ts)].assistantId].msg;
      var calls := ExtractToolCalls(msg);
      CallIdsAreCalls(msg);
      if |calls| == 0 {
        return LoopDone;
      }
      assert calls[0].callId in CallIds(msg);
      f := EnterTools();
      NotCalmStops(store.disk, ts, chain);
    }

    /** The step has calls to run: its tools phase begins. */
    method EnterTools() returns (f: Flow)
      requires store.Valid() && AtStep(store.disk, ts, chain, store.IsCalm()) && ts.phase == Streaming
      modifies this`ts, store`disk, store`log, store`turns
      ensures store.Valid() && store.turns == old(store.turns) && old(store.log) <= store.log
      ensures Savable(store.disk, ts, chain) && ts == old(ts).(phase := Tools)
      ensures f != LoopDone && (store.IsCalm() ==> old(store.IsCalm()) && f == LoopContinue)
      ensures f == LoopContinue ==>
        && AtStep(store.disk, ts, chain, store.IsCalm()) && store.disk == old(store.disk).(turn := Some(ts))
        && StepMessage(store.disk, StepKey(ts)) == StepMessage(old(store.disk), StepKey(ts))
    {
      hide LegalRun, Consistent, AtStep, Savable, store.Valid, store.IsCalm, StepMessage;
      ghost var d, calm := store.disk, store.IsCalm();
      AtStepFacts(d, ts, chain, calm);
      NothingPending(d, ts, chain);
      PhaseChanged(d, ts, chain, calm, Tools, ts.pending);
      ts := ts.(phase := Tools);
      AtStepFacts(d, ts, chain, calm);
      var o := SaveTurn();
      if o != Written {
        return FlowOf(o);
      }
      SavedAtStep(d, ts, chain, calm);
      AtStepFacts(store.disk, ts, chain, calm);
      f := LoopContinue;
    }

    lemma HistoryExists()
      requires store.Valid() && StreamReady(store.disk, ts, chain, store.IsCalm())
      ensures "" !in store.disk.messages && Grounded(store.disk.messages)
      ensures exists ids :: IsChain(store.disk.messages, ts.leaf, ids)
    {
      StreamReadyFacts(store.disk, ts, chain, store.IsCalm());
    }

    // ----- Whole turns

    /** completeTurn: the last state is saved, the thread's totals are updated
        and the turn record is removed. The response metadata is never rewritten,
        because messages are write-once. */
    method CompleteTurn() returns (f: Flow, ghost saved: bool, ghost removed: bool)
      requires store.Valid() && Savable(store.disk, ts, chain)
      modifies store
      ensures store.Valid() && old(store.log) <= store.log
      ensures store.disk == old(store.disk).(turn := if !saved then old(store.disk.turn) else if removed then None else Some(ts))
      ensures removed ==> saved
      ensures f == LoopContinue ==> saved
      ensures f == LoopContinue || f == LoopStop || f == LoopDied
      ensures store.IsCalm() ==> old(store.IsCalm()) && saved && f != LoopDied && (removed <==> f == LoopContinue)
    {
      hide LegalRun, Consistent, Savable, store.Valid, store.IsCalm;
      saved, removed := false, false;
      var o := SaveTurn();
      if o != Written {
        return FlowOf(o), false, false;
      }
      saved := true;
      var totalsFailed := *;
      if totalsFailed {
        store.Fail();
        return LoopStop, true, false;
      }
      if ts.assistantId in store.disk.messages {
        store.DiskGrounded();
        var stored := store.disk.messages[ts.assistantId];
        ParentExists(store.disk.messages, ts.assistantId);
        o := store.SaveMessage(ts.assistantId, stored.(msg := WithMetadata(stored.msg, "finished")));
        assert o == Exists;
      }
      o := store.DeleteTurnState();
      removed := o == Written;
      f := if o == Died then LoopDied else LoopContinue;
    }

    /** One phase. */
    method RunPhase() returns (f: Flow)
      requires store.Valid() && PhaseReady(store.disk, ts, chain, store.IsCalm(), asyncHandles)
      modifies this, store
      ensures store.Valid() && old(store.log) <= store.log && Savable(store.disk, ts, chain)
      ensures store.IsCalm() ==> old(store.IsCalm()) && f != LoopDied
      ensures f == LoopStop ==> Stopped(store.disk, ts, chain, store.IsCalm())
      ensures f == LoopContinue ==> PhaseReady(store.disk, ts, chain, store.IsCalm(), asyncHandles)
      ensures f == LoopDone ==> LoopEnded(store.disk, ts, chain, store.IsCalm(), cancelled)
      ensures old(Asleep(store.disk, ts)) ==> f == LoopDone && store.disk == old(store.disk) && ts == old(ts)
    {
      hide LegalRun, Consistent, Savable, StreamReady, Stopped, AtStep, Asking, StepEnded, StepCancelled, HandlesOpen,
        store.Valid, store.IsCalm, AtNextStep, BackAtWork, HandlesReady, ToolsPhaseLeft, StepMessage, CallIds;
      ghost var k := StepKey(ts);
      match ts.phase
      case Streaming =>
        f := RunStreamingPhase();
      case Tools =>
        f := RunToolsPhase();
        NotCalmStops(store.disk, ts, chain);
        if f == LoopContinue {
          ToolsLeftReady(store.disk, k, ts, chain, store.IsCalm(), asyncHandles);
        }
      case WaitingForAsync =>
        f := RunWaitingForAsyncPhase();
        NotCalmStops(store.disk, ts, chain);
        if f == LoopContinue {
          NextStepReady(store.disk, k, ts, chain, store.IsCalm(), asyncHandles);
        }
      case WaitingForAnswer =>
        f := RunWaitingForAnswerPhase();
        if f == LoopContinue {
          BackReady(store.disk, k, ts, chain, store.IsCalm(), asyncHandles);
        }
    }

    /** executeLoop: one phase after another, for as long as the process is
        watched. Undisturbed, the turn ends asleep on a question or with its
        history tool-closed. */
    method ExecuteLoop() returns (f: Flow)
      requires store.Valid() && PhaseReady(store.disk, ts, chain, store.IsCalm(), asyncHandles)
      modifies this, store
      ensures store.Valid() && old(store.log) <= store.log && Savable(store.disk, ts, chain)
      ensures f == LoopDone || f == LoopStop || f == LoopDied
      ensures store.IsCalm() ==> old(store.IsCalm()) && f != LoopDied
      ensures f == LoopStop ==> Stopped(store.disk, ts, chain, store.IsCalm())
      ensures f == LoopDone ==> LoopEnded(store.disk, ts, chain, store.IsCalm(), cancelled)
      ensures old(Asleep(store.disk, ts)) ==> f != LoopStop && store.disk == old(store.disk) && ts == old(ts)
    {
      hide LegalRun, Consistent, Savable, store.Valid, store.IsCalm, PhaseReady, LoopEnded, Asleep, Stopped;
      var watched :| 0 <= watched;
      while watched > 0
        invariant store.Valid() && old(store.log) <= store.log
        invariant PhaseReady(store.disk, ts, chain, store.IsCalm(), asyncHandles)
        invariant store.IsCalm() ==> old(store.IsCalm())
        invariant old(Asleep(store.disk, ts)) ==> store.disk == old(store.disk) && ts == old(ts)
        decreases watched
      {
        watched := watched - 1;
        f := RunPhase();
        if f != LoopContinue {
          return;
        }
      }
      ReadyIsSavable(store.disk, ts, chain, store.IsCalm(), asyncHandles);
      store.Interrupt();
      f := LoopDied;
    }
  }
}
