/** What callers may do to a thread: start a turn, resume the one on disk,
    answer its question, or cancel it while it waits. */
module Turns {
  import opened Messages
  import opened Text
  import opened ToolClosure
  import opened Accumulator
  import opened ThreadStore
  import opened RunLog
  import opened Store
  import opened StepWork
  import opened ToolAnswers
  import opened StepCalls
  import opened TurnLoop

  /** What is left between two processes of an undisturbed thread: no turn, or
      one that can go on from its record. */
  ghost predicate Resting(d: Disk, calm: bool) {
    calm && d.turn.Some? ==> exists ids :: PhaseReady(d, d.turn.value, ids, true, [])
  }

  /** The turn on disk waits for an answer that has not been given. */
  predicate Waits(d: Disk) {
    d.turn.Some? && Asleep(d, d.turn.value)
  }

  /** Whatever a run left on disk, its turn can be taken up again. */
  lemma RestingReady(d: Disk, calm: bool) returns (ids: seq<string>)
    requires Consistent(d) && d.turn.Some? && Resting(d, calm)
    ensures PhaseReady(d, d.turn.value, ids, calm, [])
    ensures IsChain(d.messages, d.turn.value.leaf, ids)
  {
    var ts := d.turn.value;
    if calm {
      hide PhaseReady, Savable;
      ids :| PhaseReady(d, ts, ids, true, []);
      ReadyIsSavable(d, ts, ids, true, []);
      SavableHasChain(d, ts, ids);
    } else {
      ids := DisturbedReady(d);
    }
  }

  lemma SavableHasChain(d: Disk, ts: TurnState, ids: seq<string>)
    requires Savable(d, ts, ids)
    ensures IsChain(d.messages, ts.leaf, ids)
  {
  }

  lemma DisturbedReady(d: Disk) returns (ids: seq<string>)
    requires Consistent(d) && d.turn.Some?
    ensures PhaseReady(d, d.turn.value, ids, false, []) && IsChain(d.messages, d.turn.value.leaf, ids)
  {
    hide CalmStep, CalmOpen, Grounded, AtResult, StepEnded, IsChain, AllAnswered;
    ids := LeafChain(d.messages, d.turn.value.leaf);
  }

  // ----- The end of a turn

  /** What RunTurn and ResumeTurn do once the loop is over: a turn that waits
      stays on disk, one that is done or was cancelled is completed. A turn that
      is cancelled by an error leaves a tool-closed history exactly when the
      error did not hit the continuation of an answered tool. */
  method FinishTurn(lc: LoopContext, ended: Flow) returns (f: Flow)
    requires lc.store.Valid() && Savable(lc.store.disk, lc.ts, lc.chain)
    requires ended == LoopDone || ended == LoopStop || ended == LoopDied
    requires lc.store.IsCalm() ==> ended != LoopDied
    requires ended == LoopDone ==> LoopEnded(lc.store.disk, lc.ts, lc.chain, lc.store.IsCalm(), lc.cancelled)
    requires ended == LoopStop ==> Stopped(lc.store.disk, lc.ts, lc.chain, lc.store.IsCalm())
    modifies lc`cancelled, lc.store
    ensures lc.store.Valid() && old(lc.store.log) <= lc.store.log && Resting(lc.store.disk, lc.store.IsCalm())
    ensures lc.store.IsCalm() ==> old(lc.store.IsCalm())
    ensures lc.store.IsCalm() && lc.store.disk.turn.None? ==> ClosedAt(lc.store.disk, lc.ts.leaf)
    ensures lc.ts.leaf == "" || lc.ts.leaf in lc.store.disk.messages
    ensures ended != LoopStop && lc.ts.phase == WaitingForAnswer ==> lc.store.disk == old(lc.store.disk)
    ensures ended == LoopStop && old(lc.store.IsCalm()) && lc.store.disk.turn.None? ==>
      (ClosedAt(lc.store.disk, lc.ts.leaf) <==> lc.ts.phase == Streaming)
  {
    hide LegalRun, Consistent, Savable, lc.store.Valid, lc.store.IsCalm, LoopEnded, Stopped, Resting, ClosedAt;
    ghost var d, calm := lc.store.disk, lc.store.IsCalm();
    LeafExists(d, lc.ts, lc.chain);
    NotCalmRests(d);
    if ended == LoopDied {
      return LoopDied;
    }
    ghost var saved, removed;
    if ended != LoopDone {
      StoppedRests(d, lc.ts, lc.chain, calm);
      var stopped := lc.ContextErr();
      if stopped {
        if lc.ts.phase == WaitingForAnswer {
          CancellingNoted(lc.store);
        }
        f, saved, removed := lc.CompleteTurn();
        CompletedRests(d, lc.ts, lc.store.disk, calm && lc.ts.phase == Streaming, lc.store.IsCalm());
        if calm {
          StoppedLeaf(d, lc.ts, lc.chain, lc.store.disk);
        }
      }
      return LoopStop;
    }
    EndedRests(d, lc.ts, lc.chain, calm, lc.cancelled);
    if lc.ts.phase == WaitingForAnswer {
      return LoopDone;
    }
    f, saved, removed := lc.CompleteTurn();
    CompletedRests(d, lc.ts, lc.store.disk, calm, lc.store.IsCalm());
    if calm && lc.store.disk.turn.None? {
      EndedIsClosed(d, lc.ts, lc.chain, lc.cancelled);
      ClosedStays(d, lc.store.disk, lc.ts.leaf);
    }
  }

  lemma ClosedStays(d: Disk, d': Disk, leaf: string)
    requires MessagesKept(d.messages, d'.messages) && ClosedAt(d, leaf)
    ensures ClosedAt(d', leaf)
  {
    var ids :| IsChain(d.messages, leaf, ids) && ToolClosed(MessagesOf(d.messages, ids));
    ChainKept(d.messages, d'.messages, leaf, ids);
  }

  /** A history is tool-closed exactly when it leaves no call open. */
  lemma ClosedExactly(d: Disk, leaf: string, ids: seq<string>, pending: set<string>)
    requires IsChain(d.messages, leaf, ids) && ChainPending(d.messages, ids, pending)
    ensures ClosedAt(d, leaf) <==> pending == {}
  {
    forall other | IsChain(d.messages, leaf, other)
      ensures other == ids
    {
      ChainUnique(d.messages, leaf, other, ids);
    }
  }

  lemma StoppedRests(d: Disk, ts: TurnState, ids: seq<string>, calm: bool)
    requires Stopped(d, ts, ids, calm) && Savable(d, ts, ids)
    ensures Resting(d, calm)
    ensures Resting(d.(turn := Some(ts)), calm && ts.phase == Streaming)
    ensures calm ==> ts.phase == Streaming || ts.phase == WaitingForAnswer
  {
    hide Savable, AtStep, AtStart, AtResult, StepEnded;
    if calm {
      if StreamReady(d, ts, ids, true) {
        assert d.(turn := Some(ts)) == d && PhaseReady(d, ts, ids, true, []);
      } else {
        var was :| Asking(d, d.turn.value, was, true);
        assert PhaseReady(d, d.turn.value, was, true, []);
      }
    }
  }

  /** The turn record was saved, and perhaps removed. */
  lemma CompletedRests(d: Disk, ts: TurnState, d': Disk, calm: bool, calm': bool)
    requires Resting(d.(turn := Some(ts)), calm) && (calm' ==> calm)
    requires calm' ==> d'.turn.None? || d' == d.(turn := Some(ts))
    ensures Resting(d', calm')
  {
  }

  /** Where an undisturbed turn that was stopped by an error left its history. */
  lemma StoppedLeaf(d: Disk, ts: TurnState, ids: seq<string>, d': Disk)
    requires Stopped(d, ts, ids, true) && Savable(d, ts, ids) && d'.messages == d.messages
    ensures ClosedAt(d', ts.leaf) <==> ts.phase == Streaming
  {
    hide AtStart, AtResult, StepEnded, Answered, CallIds, StepMessage;
    if StreamReady(d, ts, ids, true) {
      StreamReadyFacts(d, ts, ids, true);
      ClosedExactly(d', ts.leaf, ids, {});
    } else {
      ClosedExactly(d', ts.leaf, ids, Unresolved(d, StepKey(ts)));
    }
  }

  lemma EndedRests(d: Disk, ts: TurnState, ids: seq<string>, calm: bool, cancelled: bool)
    requires LoopEnded(d, ts, ids, calm, cancelled)
    ensures ts.phase == WaitingForAnswer ==> d.turn == Some(ts)
    ensures Resting(d.(turn := Some(ts)), calm)
  {
    hide CalmStep, Grounded, Answered, StepMessage;
    var d' := d.(turn := Some(ts));
    if calm {
      if Asking(d, ts, ids, true) {
        assert d' == d && PhaseReady(d, ts, ids, true, []);
      } else if StepEnded(d, ts, ids, true) {
        EndedReady(d, ts, ids);
      } else {
        SavedAtStep(d, ts, ids, true);
        assert PhaseReady(d', ts, ids, true, []);
      }
    }
  }

  lemma EndedReady(d: Disk, ts: TurnState, ids: seq<string>)
    requires StepEnded(d, ts, ids, true)
    ensures PhaseReady(d.(turn := Some(ts)), ts, ids, true, [])
  {
    hide CalmStep, Grounded, Answered;
    SavedTurn(d, ts, ids);
    assert StepEnded(d.(turn := Some(ts)), ts, ids, true);
  }

  /** A turn that waited for an answer was given up. */
  ghost method CancellingNoted(dir: ThreadDir)
    requires dir.Valid()
    modifies dir`log
    ensures dir.Valid() && !dir.IsCalm() && old(dir.log) <= dir.log
  {
    dir.Note(CancelledWaiting);
  }

  // ----- Resuming

  /** The step result that stands for the step file of the current step. */
  ghost predicate RecoveryDone(d: Disk, d': Disk, ts: TurnState, complete: bool) {
    var k := StepKey(ts);
    && k in d.chunks && k in d'.results && d' == d.(results := d.results[k := d'.results[k]])
    && (complete <==> exists i :: 0 <= i < |d.chunks[k]| && d.chunks[k][i].Finish?)
    && Recovered(d.chunks[k], complete, d'.results[k])
    && (ts.step == 0 ==> d'.results[k].assistant.id == ts.assistantId)
  }

  /** recoverStreamingStep: rebuilds the step result from the step file. A
      stream that reached its finish chunk counts as the model's whole reply;
      of any other only text and reasoning are kept. */
  method RecoverStreamingStep(lc: LoopContext) returns (streamComplete: bool, recovered: bool, died: bool)
    requires lc.store.Valid() && AtStart(lc.store.disk, lc.ts, lc.chain, lc.store.IsCalm())
    requires StepKey(lc.ts) !in lc.store.disk.results
    modifies lc.store`disk, lc.store`log, lc.store`turns
    ensures lc.store.Valid() && old(lc.store.log) <= lc.store.log
    ensures lc.store.IsCalm() ==> old(lc.store.IsCalm()) && !died
    ensures !recovered ==> lc.store.disk == old(lc.store.disk) && !streamComplete
    ensures recovered ==> !died && AtResult(lc.store.disk, lc.ts, lc.chain, lc.store.IsCalm())
    ensures recovered ==> RecoveryDone(old(lc.store.disk), lc.store.disk, lc.ts, streamComplete)
  {
    hide LegalRun, Consistent, AtStart, AtResult, lc.store.Valid, lc.store.IsCalm, Recovered;
    streamComplete, recovered, died := false, false, false;
    var k := StepKey(lc.ts);
    if k !in lc.store.disk.chunks || |lc.store.disk.chunks[k]| == 0 {
      return;
    }
    ghost var d, calm := lc.store.disk, lc.store.IsCalm();
    AtStartFacts(d, lc.ts, lc.chain, calm);
    lc.store.TurnIsKnown();
    var r;
    streamComplete, r := RebuildResult(lc.store.disk.chunks[k], lc.ts);
    RecoveredRole(lc.store.disk.chunks[k], streamComplete, r);
    var o := lc.store.SaveRebuiltResult(k, r);
    if o != Written {
      return false, false, o == Died;
    }
    ReplySaved(d, lc.ts, lc.chain, calm, r);
    AtResultFacts(lc.store.disk, lc.ts, lc.chain, calm);
    recovered := true;
  }

  lemma RecoveredRole(chunks: seq<Chunk>, complete: bool, r: StepResult)
    requires Recovered(chunks, complete, r)
    ensures r.assistantId == "" && r.assistant.role == Assistant && r.calls == []
  {
  }

  /** The step result that a step file leads to. */
  method RebuildResult(chunks: seq<Chunk>, ts: TurnState) returns (complete: bool, r: StepResult)
    ensures complete <==> exists i :: 0 <= i < |chunks| && chunks[i].Finish?
    ensures Recovered(chunks, complete, r) && (ts.step == 0 ==> r.assistant.id == ts.assistantId)
  {
    hide StreamParts, ContentParts;
    var msg;
    complete, msg := ReadStepFile(chunks);
    ghost var parts := msg.parts;
    if ts.step == 0 {
      msg := msg.(id := ts.assistantId);
    }
    if !complete {
      var kept := FilterContentParts(msg.parts);
      msg := msg.(parts := kept);
    }
    r := StepResult("", "", msg, []);
    RecoveredFrom(chunks, complete, parts, r);
  }

  /** The step result that stands for a stream found on disk. The calls of the
      reply are not recorded in it. */
  ghost predicate Recovered(chunks: seq<Chunk>, complete: bool, r: StepResult) {
    && r.assistantId == "" && r.replacesId == "" && r.calls == [] && r.assistant.role == Assistant
    && exists parts ::
         && StreamParts(chunks, parts)
         && r.assistant.parts == if complete then parts else ContentParts(parts)
  }

  lemma RecoveredFrom(chunks: seq<Chunk>, complete: bool, parts: seq<Part>, r: StepResult)
    requires r.assistantId == "" && r.replacesId == "" && r.calls == [] && r.assistant.role == Assistant
    requires StreamParts(chunks, parts) && r.assistant.parts == if complete then parts else ContentParts(parts)
    ensures Recovered(chunks, complete, r)
  {
  }

  method ReadStepFile(chunks: seq<Chunk>) returns (complete: bool, msg: Message)
    ensures complete <==> exists i :: 0 <= i < |chunks| && chunks[i].Finish?
    ensures msg.role == Assistant && StreamParts(chunks, msg.parts)
  {
    hide AfterChunk, PartlyClosed, Accumulator.Valid;
    var acc := new ChunkAccumulator();
    complete := false;
    for i := 0 to |chunks|
      invariant !acc.closed && Accumulator.Valid(acc.State()) && acc.State() == Accumulate(INITIAL, chunks[..i])
      invariant complete <==> exists j :: 0 <= j < i && chunks[j].Finish?
      invariant fresh(acc)
    {
      assert chunks[..i + 1] == chunks[..i] + [chunks[i]];
      AccumulateSnoc(INITIAL, chunks[..i], chunks[i]);
      acc.Push(chunks[i]);
      if chunks[i].Finish? {
        complete := true;
      }
    }
    assert chunks[..|chunks|] == chunks;
    acc.Close();
    msg := acc.GetMessage();
  }

  lemma NotCalmRests(d: Disk)
    ensures Resting(d, false)
  {
  }

  lemma RecoveredFacts(d: Disk, d': Disk, ts: TurnState, complete: bool)
    requires RecoveryDone(d, d', ts, complete)
    ensures var r := d'.results[StepKey(ts)];
      r.assistantId == "" && r.assistant.role == Assistant && (!complete ==> CallIds(r.assistant) == {})
  {
    var parts :| StreamParts(d.chunks[StepKey(ts)], parts) &&
      d'.results[StepKey(ts)].assistant.parts == if complete then parts else ContentParts(parts);
    ContentHasNoCalls(parts);
  }

  /** A saved reply without calls ends the step. */
  lemma QuietReplyEnds(d: Disk, ts: TurnState, ids: seq<string>, calm: bool)
    requires AtReply(d, ts, ids, calm)
    requires calm ==> CallIds(d.results[StepKey(ts)].assistant) == {}
    ensures calm ==> StepEnded(d, ts, ids, true)
    ensures Savable(d, ts, ids)
  {
    if calm && CalmStep(d, ids, ts.leaf, StepKey(ts)) {
      assert CallIds(StepMessage(d, StepKey(ts))) == {};
      assert Unresolved(d, StepKey(ts)) == {};
    }
  }

  /** An interrupted stream: its text becomes the assistant message, its tool
      calls are dropped, and the turn is over. */
  method FinishBrokenStep(lc: LoopContext) returns (f: Flow)
    requires lc.store.Valid() && AtResult(lc.store.disk, lc.ts, lc.chain, lc.store.IsCalm())
    requires lc.store.disk.results[StepKey(lc.ts)].assistantId == ""
    requires lc.store.disk.results[StepKey(lc.ts)].assistant.role == Assistant
    requires CallIds(lc.store.disk.results[StepKey(lc.ts)].assistant) == {}
    modifies lc, lc.store
    ensures lc.store.Valid() && old(lc.store.log) <= lc.store.log && Resting(lc.store.disk, lc.store.IsCalm())
    ensures lc.store.IsCalm() ==> old(lc.store.IsCalm())
    ensures lc.store.IsCalm() && lc.store.disk.turn.None? ==> ClosedAt(lc.store.disk, lc.ts.leaf)
    ensures lc.ts.leaf == "" || lc.ts.leaf in lc.store.disk.messages
  {
    hide LegalRun, Consistent, Savable, lc.store.Valid, lc.store.IsCalm, AtResult, AtReply, CallIds, Resting, ClosedAt,
      StepEnded, StepMessage;
    AtResultFacts(lc.store.disk, lc.ts, lc.chain, lc.store.IsCalm());
    BrokenRests(lc.store.disk, lc.ts, lc.chain, lc.store.IsCalm());
    f := lc.SaveAssistantStepMessage();
    LeafExists(lc.store.disk, lc.ts, lc.chain);
    NotCalmRests(lc.store.disk);
    if f != LoopContinue {
      return;
    }
    ghost var d, calm := lc.store.disk, lc.store.IsCalm();
    QuietReplyEnds(d, lc.ts, lc.chain, calm);
    ghost var saved, removed;
    if calm {
      EndedRests(d, lc.ts, lc.chain, true, false);
    }
    NotCalmRests(d.(turn := Some(lc.ts)));
    f, saved, removed := lc.CompleteTurn();
    CompletedRests(d, lc.ts, lc.store.disk, calm, lc.store.IsCalm());
    if calm {
      EndedIsClosed(d, lc.ts, lc.chain, false);
      ClosedStays(d, lc.store.disk, lc.ts.leaf);
    }
  }

  lemma BrokenRests(d: Disk, ts: TurnState, ids: seq<string>, calm: bool)
    requires AtResult(d, ts, ids, calm) && d.results[StepKey(ts)].assistantId == ""
    ensures Resting(d, calm) && PhaseReady(d, ts, ids, calm, [])
  {
    hide AtResult;
    AtResultFacts(d, ts, ids, calm);
    ResultIsReady(d, ts, ids, calm);
    assert PhaseReady(d, ts, ids, calm, []);
  }

  lemma StreamingIsReady(d: Disk, ts: TurnState, ids: seq<string>, calm: bool)
    requires PhaseReady(d, ts, ids, calm, []) && ts.phase == Streaming
    ensures StreamReady(d, ts, ids, calm)
  {
  }

  /** ResumeTurn: takes up the turn on disk where the last process left it. */
  method ResumeTurn(dir: ThreadDir) returns (f: Flow, end: string)
    requires dir.Valid() && dir.disk.turn.Some? && Resting(dir.disk, dir.IsCalm())
    modifies dir
    ensures dir.Valid() && old(dir.log) <= dir.log && Resting(dir.disk, dir.IsCalm())
    ensures dir.IsCalm() ==> old(dir.IsCalm())
    ensures end == "" || end in dir.disk.messages
    ensures dir.IsCalm() && dir.disk.turn.None? ==> ClosedAt(dir.disk, end)
    ensures Waits(old(dir.disk)) ==> dir.disk == old(dir.disk)
  {
    hide LegalRun, Consistent, Savable, dir.Valid, dir.IsCalm, Resting, PhaseReady, LoopEnded, AtResult, AtReply,
      Recovered, AtStart, StreamReady, Stopped, ClosedAt, MaxStepsReminder;
    dir.DiskFacts();
    ghost var d := dir.disk;
    ghost var ids := RestingReady(d, dir.IsCalm());
    ReadyIsSavable(d, d.turn.value, ids, dir.IsCalm(), []);
    var lc := new LoopContext(dir, dir.disk.turn.value, ids);
    if lc.ts.phase.Streaming? && StepKey(lc.ts) !in dir.disk.results {
      StreamingIsReady(d, lc.ts, ids, dir.IsCalm());
      StreamReadyFacts(d, lc.ts, ids, dir.IsCalm());
      var streamComplete, recovered, died := RecoverStreamingStep(lc);
      if died {
        LeafExists(dir.disk, lc.ts, lc.chain);
        NotCalmRests(dir.disk);
        return LoopDied, lc.ts.leaf;
      }
      if recovered {
        RecoveredFacts(d, dir.disk, lc.ts, streamComplete);
        if !streamComplete {
          f := FinishBrokenStep(lc);
          return f, lc.ts.leaf;
        }
        BrokenRests(dir.disk, lc.ts, lc.chain, dir.IsCalm());
      } else if !dir.IsCalm() {
        LessCalm(d, lc.ts, ids);
      }
    }
    f := lc.ExecuteLoop();
    f := FinishTurn(lc, f);
    dir.DiskFacts();
    end := lc.ts.leaf;
  }

  lemma LessCalm(d: Disk, ts: TurnState, ids: seq<string>)
    requires Savable(d, ts, ids) && d.turn == Some(ts) && ts.phase == Streaming
    ensures PhaseReady(d, ts, ids, false, [])
  {
  }

  // ----- Starting

  lemma AddedKept(m: map<string, Stored>, id: string, stored: Stored)
    requires id !in m
    ensures MessagesKept(m, m[id := stored])
  {
  }

  /** A message outside the loop: one that opens a turn, or one that is put
      under a thread while no turn is on disk. */
  method SaveUserMessage(dir: ThreadDir, parent: string, id: string, msg: Message, ghost ids: seq<string>)
    returns (o: Outcome)
    requires dir.Valid() && IsChain(dir.disk.messages, parent, ids) && id != ""
    requires msg.role == User || msg.role == System
    requires dir.IsCalm() ==> ChainPending(dir.disk.messages, ids, {})
    modifies dir
    ensures dir.Valid() && dir.turns == old(dir.turns) && old(dir.issued) <= dir.issued && old(dir.log) <= dir.log
    ensures dir.IsCalm() ==> old(dir.IsCalm()) && (o == Written || o == Exists)
    ensures id in old(dir.disk.messages) <==> o == Exists
    ensures MessagesKept(old(dir.disk.messages), dir.disk.messages)
    ensures dir.disk == if o == Written then WithMessage(old(dir.disk), id, Stored(parent, "", msg)) else old(dir.disk)
    ensures o == Written ==>
      && IsChain(dir.disk.messages, id, ids + [id])
      && (dir.IsCalm() ==> ChainPending(dir.disk.messages, ids + [id], {}) && ChildrenQuiet(dir.disk.messages, id))
  {
    hide LegalRun, Consistent, ChainPending, ChildFree, ChildrenQuiet, Grounded, MessagesKept, IsChain, dir.Valid,
      dir.IsCalm, dir.Sound, dir.Owes, dir.Awaits, OwesMessage, OwesListing;
    ghost var m, calm := dir.disk.messages, dir.IsCalm();
    dir.DiskGrounded();
    ChainEnds(m, parent, ids);
    var stored := Stored(parent, "", msg);
    KeptAlready(m);
    if id !in m {
      AddedKept(m, id, stored);
    }
    o := dir.SaveMessage(id, stored);
    if o == Written {
      ChainExtended(m, id, stored, ids);
      if calm {
        UserMessageScanned(m, ids, parent, id, stored);
        ChildFreeIsQuiet(m[id := stored], id);
      }
    }
  }

  lemma ChainEnds(m: map<string, Stored>, leaf: string, ids: seq<string>)
    requires IsChain(m, leaf, ids)
    ensures leaf == "" || leaf in m
  {
  }

  /** The chain that a turn starts on; ToolClosed when some chain is. */
  lemma OpeningChain(d: Disk, leaf: string) returns (ids: seq<string>)
    requires Grounded(d.messages) && (leaf == "" || leaf in d.messages)
    ensures IsChain(d.messages, leaf, ids)
    ensures ClosedAt(d, leaf) ==> ChainPending(d.messages, ids, {})
  {
    if ClosedAt(d, leaf) {
      ids :| IsChain(d.messages, leaf, ids) && ToolClosed(MessagesOf(d.messages, ids));
    } else {
      ids := LeafChain(d.messages, leaf);
    }
  }

  /** A turn with a new ID and a saved user message is about to call the model. */
  lemma TurnOpens(d: Disk, turns: set<string>, ts: TurnState, ids: seq<string>, calm: bool)
    requires IsChain(d.messages, ts.leaf, ids) && KeysIn(d, turns) && ts.id !in turns
    requires ts.step == 0 && ts.phase == Streaming && ts.leaf != "" && ts.pending == ""
    requires calm ==> ChainPending(d.messages, ids, {}) && ChildrenQuiet(d.messages, ts.leaf)
    ensures TurnConsistent(d, ts) && AtStart(d.(turn := Some(ts)), ts, ids, calm)
  {
  }

  lemma OtherTurn(d: Disk, turns: set<string>, id: string)
    requires TurnId(d) <= turns && id !in turns
    ensures d.turn.Some? ==> d.turn.value.id != id
  {
  }

  lemma KeptStill(a: map<string, Stored>, b: map<string, Stored>, c: map<string, Stored>)
    requires MessagesKept(a, b) && MessagesKept(b, c)
    ensures MessagesKept(a, c)
  {
  }

  /** The chain `ids` is `start` followed by `opening`, one message each, under
      the IDs that they were given or drew. */
  ghost predicate OpensWith(m: map<string, Stored>, start: seq<string>, ids: seq<string>, opening: seq<Message>) {
    && |ids| == |start| + |opening| && start <= ids
    && forall i :: 0 <= i < |opening| ==> SavedAs(m, ids[|start| + i], opening[i])
  }

  ghost predicate SavedAs(m: map<string, Stored>, id: string, msg: Message) {
    id in m && m[id].msg == msg.(id := id) && (msg.id != "" ==> id == msg.id)
  }

  lemma OpeningSaved(
    m: map<string, Stored>, start: seq<string>, ids: seq<string>, opening: seq<Message>, id: string, stored: Stored, msg: Message)
    requires OpensWith(m, start, ids, opening) && id !in m
    requires stored.msg == msg.(id := id) && (msg.id != "" ==> id == msg.id)
    ensures OpensWith(m[id := stored], start, ids + [id], opening + [msg])
  {
    var m', ids', opening' := m[id := stored], ids + [id], opening + [msg];
    forall i | 0 <= i < |opening'|
      ensures SavedAs(m', ids'[|start| + i], opening'[i])
    {
      if i < |opening| {
        assert ids'[|start| + i] == ids[|start| + i] && opening'[i] == opening[i];
        assert SavedAs(m, ids[|start| + i], opening[i]);
      } else {
        assert ids'[|start| + i] == id && opening'[i] == msg;
      }
    }
  }

  /** The reminders before the user message. A given ID may already exist. */
  method SavePreludes(dir: ThreadDir, leaf: string, preludes: seq<Message>, ghost start: seq<string>)
    returns (saved: bool, parent: string, ghost ids: seq<string>)
    requires dir.Valid() && IsChain(dir.disk.messages, leaf, start)
    requires dir.IsCalm() ==> ChainPending(dir.disk.messages, start, {})
    requires forall i :: 0 <= i < |preludes| ==> preludes[i].role == User
    modifies dir
    ensures dir.Valid() && dir.turns == old(dir.turns) && old(dir.issued) <= dir.issued && old(dir.log) <= dir.log
    ensures dir.IsCalm() ==> old(dir.IsCalm()) && ChainPending(dir.disk.messages, ids, {})
    ensures MessagesKept(old(dir.disk.messages), dir.disk.messages)
    ensures dir.disk == old(dir.disk).(messages := dir.disk.messages)
    ensures IsChain(dir.disk.messages, parent, ids)
    ensures saved ==> OpensWith(dir.disk.messages, start, ids, preludes)
  {
    hide LegalRun, Consistent, ChainPending, ChildFree, Grounded, IsChain, MessagesKept, OpensWith, dir.Valid, dir.IsCalm;
    NothingOpened(dir.disk.messages, start);
    ghost var m0 := dir.disk.messages;
    KeptAlready(m0);
    saved, parent, ids := false, leaf, start;
    for i := 0 to |preludes|
      invariant dir.Valid() && dir.turns == old(dir.turns) && old(dir.issued) <= dir.issued && old(dir.log) <= dir.log
      invariant IsChain(dir.disk.messages, parent, ids) && OpensWith(dir.disk.messages, start, ids, preludes[..i])
      invariant dir.IsCalm() ==> old(dir.IsCalm()) && ChainPending(dir.disk.messages, ids, {})
      invariant dir.disk == old(dir.disk).(messages := dir.disk.messages)
      invariant MessagesKept(m0, dir.disk.messages)
    {
      ghost var m := dir.disk.messages;
      var done, id := SavePrelude(dir, parent, preludes[i], ids);
      KeptStill(m0, m, dir.disk.messages);
      if !done {
        return;
      }
      OpeningSaved(m, start, ids, preludes[..i], id, Stored(parent, "", preludes[i].(id := id)), preludes[i]);
      assert preludes[..i + 1] == preludes[..i] + [preludes[i]];
      parent, ids := id, ids + [id];
    }
    assert preludes[..|preludes|] == preludes;
    saved := true;
  }

  /** One reminder, under its own ID or a new one. */
  method SavePrelude(dir: ThreadDir, parent: string, prelude: Message, ghost ids: seq<string>)
    returns (done: bool, id: string)
    requires dir.Valid() && IsChain(dir.disk.messages, parent, ids) && prelude.role == User
    requires dir.IsCalm() ==> ChainPending(dir.disk.messages, ids, {})
    modifies dir
    ensures dir.Valid() && dir.turns == old(dir.turns) && old(dir.issued) <= dir.issued && old(dir.log) <= dir.log
    ensures dir.IsCalm() ==> old(dir.IsCalm()) && ChainPending(dir.disk.messages, if done then ids + [id] else ids, {})
    ensures MessagesKept(old(dir.disk.messages), dir.disk.messages)
    ensures !done ==> dir.disk == old(dir.disk)
    ensures done ==>
      && id !in old(dir.disk.messages) && (prelude.id != "" ==> id == prelude.id)
      && dir.disk == WithMessage(old(dir.disk), id, Stored(parent, "", prelude.(id := id)))
      && IsChain(dir.disk.messages, id, ids + [id])
  {
    hide LegalRun, Consistent, ChainPending, ChildFree, Grounded, IsChain, MessagesKept, dir.Valid, dir.IsCalm;
    done, id := false, prelude.id;
    if id == "" {
      id := dir.FreshId();
    }
    var o := SaveUserMessage(dir, parent, id, prelude.(id := id), ids);
    if o == Exists {
      dir.Fail();
    }
    done := o == Written;
  }

  lemma NothingOpened(m: map<string, Stored>, start: seq<string>)
    ensures OpensWith(m, start, start, [])
  {
  }

  /** RunTurn, up to the loop: the prelude, the user message and the turn
      record, each a write of its own. */
  method StartTurn(dir: ThreadDir, leaf: string, preludes: seq<Message>, userParts: seq<Part>)
    returns (started: bool, ts: TurnState, ghost start: seq<string>, ghost ids: seq<string>)
    requires dir.Valid() && (leaf == "" || leaf in dir.disk.messages)
    requires forall i :: 0 <= i < |preludes| ==> preludes[i].role == User
    requires dir.closedStarts && dir.IsCalm() ==> ClosedAt(dir.disk, leaf)
    modifies dir
    ensures dir.Valid() && old(dir.log) <= dir.log && (dir.IsCalm() ==> old(dir.IsCalm()))
    ensures dir.IsCalm() && !started ==> ClosedAt(dir.disk, leaf)
    ensures dir.disk == old(dir.disk).(messages := dir.disk.messages, turn := dir.disk.turn)
    ensures MessagesKept(old(dir.disk.messages), dir.disk.messages)
    ensures !started ==> dir.disk.turn == old(dir.disk.turn)
    ensures started ==> dir.disk.turn == Some(ts) && AtStart(dir.disk, ts, ids, dir.IsCalm()) && ts.step == 0
    ensures started ==>
      && IsChain(old(dir.disk.messages), leaf, start)
      && OpensWith(dir.disk.messages, start, ids, preludes + [Plain(User, userParts)])
  {
    hide LegalRun, Consistent, ChainPending, ChildrenQuiet, Grounded, IsChain, dir.Valid, dir.IsCalm, ClosedAt, KeysIn,
      TurnId, TurnConsistent, AtStart, OpensWith, MessagesKept;
    dir.DiskGrounded();
    dir.DiskFacts();
    start := OpeningChain(dir.disk, leaf);
    ids := start;
    ghost var m0 := dir.disk.messages;
    KeptAlready(m0);
    ghost var d0 := dir.disk;
    StartNoted(dir, leaf);
    started, ts := false, TurnState("", 0, Streaming, leaf, "", "");
    var turnId := dir.FreshId();
    var saved, parent;
    saved, parent, ids := SavePreludes(dir, leaf, preludes, ids);
    if dir.IsCalm() {
      ClosedStays(d0, dir.disk, leaf);
    }
    if !saved {
      return;
    }
    dir.DiskFacts();
    var userId := dir.FreshId();
    ghost var m := dir.disk.messages;
    var userMsg := Plain(User, userParts);
    var o := SaveUserMessage(dir, parent, userId, userMsg.(id := userId), ids);
    KeptStill(m0, m, dir.disk.messages);
    if o != Written {
      return;
    }
    OpeningSaved(m, start, ids, preludes, userId, Stored(parent, "", userMsg.(id := userId)), userMsg);
    ids := ids + [userId];
    o, ts := RecordTurn(dir, turnId, userId, ids);
    started := o == Written;
  }

  /** The record of a new turn. */
  method RecordTurn(dir: ThreadDir, turnId: string, leaf: string, ghost ids: seq<string>)
    returns (o: Outcome, ts: TurnState)
    requires dir.Valid() && turnId in dir.issued && turnId !in dir.turns
    requires leaf != "" && IsChain(dir.disk.messages, leaf, ids)
    requires dir.IsCalm() ==> ChainPending(dir.disk.messages, ids, {}) && ChildrenQuiet(dir.disk.messages, leaf)
    modifies dir
    ensures dir.Valid() && old(dir.log) <= dir.log && (dir.IsCalm() ==> old(dir.IsCalm()) && o == Written)
    ensures dir.disk == old(dir.disk).(turn := if o == Written then Some(ts) else old(dir.disk).turn)
    ensures ts.id == turnId && ts.step == 0
    ensures o == Written ==> AtStart(dir.disk, ts, ids, dir.IsCalm())
  {
    hide LegalRun, Consistent, ChainPending, ChildrenQuiet, Grounded, IsChain, dir.Valid, dir.IsCalm, KeysIn, TurnId,
      TurnConsistent, AtStart;
    var assistantId := dir.FreshId();
    ts := TurnState(turnId, 0, Streaming, leaf, assistantId, "");
    dir.DiskFacts();
    ghost var calm := dir.IsCalm();
    TurnOpens(dir.disk, dir.turns, ts, ids, calm);
    OtherTurn(dir.disk, dir.turns, turnId);
    o := dir.SaveTurnState(ts);
    if o == Written && !dir.IsCalm() {
      AtStartFacts(dir.disk, ts, ids, calm);
    }
  }

  ghost method StartNoted(dir: ThreadDir, leaf: string)
    requires dir.Valid() && (dir.closedStarts && dir.IsCalm() ==> ClosedAt(dir.disk, leaf))
    modifies dir`log
    ensures dir.Valid() && old(dir.log) <= dir.log && (dir.IsCalm() ==> old(dir.IsCalm()) && ClosedAt(dir.disk, leaf))
  {
    dir.Note(Started(leaf));
  }

  /** RunTurn */
  method RunTurn(dir: ThreadDir, leaf: string, preludes: seq<Message>, userParts: seq<Part>)
    returns (f: Flow, end: string)
    requires dir.Valid() && (leaf == "" || leaf in dir.disk.messages) && (dir.IsCalm() ==> dir.disk.turn.None?)
    requires forall i :: 0 <= i < |preludes| ==> preludes[i].role == User
    requires dir.closedStarts && dir.IsCalm() ==> ClosedAt(dir.disk, leaf)
    modifies dir
    ensures dir.Valid() && old(dir.log) <= dir.log && Resting(dir.disk, dir.IsCalm())
    ensures dir.IsCalm() ==> old(dir.IsCalm())
    ensures end == "" || end in dir.disk.messages
    ensures dir.IsCalm() && dir.disk.turn.None? ==> ClosedAt(dir.disk, end)
  {
    hide LegalRun, Consistent, Grounded, dir.Valid, dir.IsCalm, ClosedAt, Resting, AtStart, Savable, PhaseReady,
      LoopEnded, Stopped, MaxStepsReminder;
    ghost var start, ids;
    var started, ts;
    started, ts, start, ids := StartTurn(dir, leaf, preludes, userParts);
    if !started {
      NothingRests(dir.disk, dir.IsCalm());
      return LoopStop, leaf;
    }
    var lc := new LoopContext(dir, ts, ids);
    OpenedIsReady(dir.disk, ts, ids, dir.IsCalm());
    f := lc.ExecuteLoop();
    f := FinishTurn(lc, f);
    end := lc.ts.leaf;
  }

  lemma OpenedIsReady(d: Disk, ts: TurnState, ids: seq<string>, calm: bool)
    requires AtStart(d, ts, ids, calm)
    ensures PhaseReady(d, ts, ids, calm, []) && Savable(d, ts, ids)
  {
    StartIsReady(d, ts, ids, calm);
  }

  lemma NothingRests(d: Disk, calm: bool)
    requires calm ==> d.turn.None?
    ensures Resting(d, calm)
  {
  }

  // ----- Answers and cancellation

  /** SubmitAnswer: stores an answer to any question of the turn on disk. */
  method SubmitAnswer(dir: ThreadDir, approvalId: string, answer: string) returns (accepted: bool, o: Outcome)
    requires dir.Valid() && Resting(dir.disk, dir.IsCalm())
    modifies dir
    ensures dir.Valid() && old(dir.log) <= dir.log
    ensures Resting(dir.disk, dir.IsCalm()) && (dir.IsCalm() ==> old(dir.IsCalm()))
    ensures accepted <==>
      && old(dir.disk).turn.Some? && old(dir.disk).turn.value.phase == WaitingForAnswer
      && AskKey(old(dir.disk).turn.value.id, approvalId) in old(dir.disk).questions
    ensures accepted && o == Written ==>
      dir.disk == old(dir.disk).(answers := old(dir.disk.answers)[AskKey(old(dir.disk).turn.value.id, approvalId) := answer])
    ensures !(accepted && o == Written) ==> dir.disk == old(dir.disk)
  {
    hide LegalRun, Consistent, dir.Valid, dir.IsCalm, Resting;
    accepted, o := false, Failed;
    if dir.disk.turn.None? || dir.disk.turn.value.phase != WaitingForAnswer {
      return;
    }
    var q := AskKey(dir.disk.turn.value.id, approvalId);
    if q !in dir.disk.questions {
      return;
    }
    accepted := true;
    ghost var d, calm := dir.disk, dir.IsCalm();
    o := dir.SaveAnswer(q, answer);
    AnswerKeepsRest(d, calm, d.answers[q := answer]);
    if !dir.IsCalm() {
      NotCalmRests(dir.disk);
    }
  }

  lemma AnswerKeepsRest(d: Disk, calm: bool, answers: map<AskKey, string>)
    requires Resting(d, calm) && d.turn.Some? && d.turn.value.phase == WaitingForAnswer
    ensures Resting(d.(answers := answers), calm)
  {
    hide Grounded, AnsweredBy, KnownContinuations, CallsRecorded;
    if calm {
      var ts, d' := d.turn.value, d.(answers := answers);
      var ids :| PhaseReady(d, ts, ids, true, []);
      assert StepMessage(d', StepKey(ts)) == StepMessage(d, StepKey(ts));
      assert Unresolved(d', StepKey(ts)) == Unresolved(d, StepKey(ts));
      assert Asking(d', ts, ids, true);
      assert PhaseReady(d', ts, ids, true, []);
    }
  }

  /** The turn waits for the answer to a question that is on disk. */
  predicate Cancellable(d: Disk) {
    && d.turn.Some? && d.turn.value.phase == WaitingForAnswer
    && AskKey(d.turn.value.id, d.turn.value.pending) in d.questions
  }

  /** The turn waits for the answer to a question that does not exist. */
  predicate Stranded(d: Disk) {
    && d.turn.Some? && d.turn.value.phase == WaitingForAnswer
    && AskKey(d.turn.value.id, d.turn.value.pending) !in d.questions
  }

  lemma StrandedWaits(d: Disk)
    requires Consistent(d) && Stranded(d)
    ensures Waits(d)
  {
  }

  lemma WaitingIsAtStep(d: Disk, ts: TurnState, ids: seq<string>, calm: bool)
    requires PhaseReady(d, ts, ids, calm, []) && ts.phase == WaitingForAnswer
    ensures AtStep(d, ts, ids, false)
  {
  }

  lemma PendingDropped(d: Disk, ts: TurnState, ids: seq<string>)
    requires AtStep(d, ts, ids, false)
    ensures AtStep(d, ts.(pending := ""), ids, false)
  {
  }

  lemma WorkedKeeps(d: Disk, ts: TurnState, d': Disk, ts': TurnState)
    requires Worked(d, ts, d', ts')
    ensures MessagesKept(d.messages, d'.messages) && d'.turn == d.turn && d'.questions == d.questions
    ensures d'.results == d.results && ts' == ts.(leaf := ts'.leaf)
  {
  }

  lemma TurnRecordOnly(d: Disk, t: Option<TurnState>, k: Key)
    ensures Answered(d.(turn := t), k) == Answered(d, k)
  {
  }

  /** The history that ends in `id` ends with the refusal of the question and the
      denied result of its call, both with the reason. */
  ghost predicate DeniedAt(m: map<string, Stored>, id: string, callId: string, approvalId: string, reason: string) {
    && id in m && m[id].parent in m
    && m[m[id].parent].msg == Plain(Tool, [ApprovalResponsePart(callId, approvalId, false, reason)])
    && exists toolName :: m[id].msg == Plain(Tool, [ToolResultPart(callId, toolName, DeniedOutput(reason))])
  }

  lemma DenialIsOwn(d: Disk, k: Key, p: Part)
    requires p.ToolResultPart? ==> p.output.DeniedOutput?
    ensures OwnParts(d, k, [p])
  {
    hide Carries, Answered;
  }

  lemma DenialSaved(d: Disk, ts: TurnState, id: string, last: string, callId: string, toolName: string, reason: string)
    requires id !in d.messages && last != id
    ensures var refusal := Plain(Tool, [ApprovalResponsePart(callId, ts.pending, false, reason)]);
      var denied := Plain(Tool, [ToolResultPart(callId, toolName, DeniedOutput(reason))]);
      var d1 := WithToolEvent(d, StepKey(ts), id, Stored(ts.leaf, "", refusal));
      DeniedAt(WithToolEvent(d1, StepKey(ts), last, Stored(id, "", denied)).messages, last, callId, ts.pending, reason)
  {
  }

  /** The two messages of a cancellation: the refusal and the denied result. */
  method DenyPending(lc: LoopContext, question: Question, reason: string, ghost open: set<string>) returns (o: Outcome)
    requires lc.store.Valid() && AtStep(lc.store.disk, lc.ts, lc.chain, false) && !lc.store.IsCalm()
    modifies lc`ts, lc`chain, lc.store
    ensures lc.store.Valid() && old(lc.store.log) <= lc.store.log
    ensures !lc.store.IsCalm() && AtStep(lc.store.disk, lc.ts, lc.chain, false)
    ensures Worked(old(lc.store.disk), old(lc.ts), lc.store.disk, lc.ts)
    ensures o == Written ==>
      Answered(lc.store.disk, StepKey(lc.ts)) == Answered(old(lc.store.disk), StepKey(lc.ts)) + {question.callId}
    ensures o == Written && open != {} && old(ChainPending(lc.store.disk.messages, lc.chain, open)) ==>
      ChainPending(lc.store.disk.messages, lc.chain, open - {question.callId})
    ensures o == Written ==> DeniedAt(lc.store.disk.messages, lc.ts.leaf, question.callId, old(lc.ts).pending, reason)
  {
    hide LegalRun, Consistent, Savable, lc.store.Valid, lc.store.IsCalm, Worked, AtStep, Answered, ChainPending, Carries,
      DeniedAt, OwnParts, IsChain, CallIds, WithToolEvent, EventsOf, Unresolved;
    ghost var d, t, ids := lc.store.disk, lc.ts, lc.chain;
    AtStepFacts(d, t, ids, false);
    var refusal := ApprovalResponsePart(question.callId, lc.ts.pending, false, reason);
    DenialIsOwn(d, StepKey(t), refusal);
    o := lc.AppendStepToolEvent([refusal]);
    if o != Written {
      return;
    }
    ghost var d1, t1, ids1 := lc.store.disk, lc.ts, lc.chain;
    AtStepFacts(d1, t1, ids1, false);
    if open != {} && ChainPending(d.messages, ids, open) {
      ToolMessageOnChain(d, t, ids, t1.leaf, ids1, [refusal], open);
    }
    var call := FindCall(lc.store.disk.results[StepKey(lc.ts)].calls, question.callId);
    var denied := ToolResultPart(question.callId, call.toolName, DeniedOutput(reason));
    DenialIsOwn(d1, StepKey(t1), denied);
    o := lc.AppendStepToolEvent([denied]);
    assert PartResultIds([denied]) == {question.callId} by { assert [denied][0] == denied; }
    WorkedTrans(d, t, d1, t1, lc.store.disk, lc.ts);
    if o == Written {
      DenialSaved(d, t, t1.leaf, lc.ts.leaf, question.callId, call.toolName, reason);
    }
    if o == Written && open != {} && ChainPending(d.messages, ids, open) {
      AtStepFacts(lc.store.disk, lc.ts, lc.chain, false);
      assert open - PartResultIds([refusal]) == open;
      ToolMessageOnChain(d1, t1, ids1, lc.ts.leaf, lc.chain, [denied], open);
    }
  }

  /** A tool message saved under a history with open calls answers some. */
  lemma ToolMessageOnChain(
    d: Disk, ts: TurnState, ids: seq<string>, id: string, ids': seq<string>, parts: seq<Part>, open: set<string>)
    requires IsChain(d.messages, ts.leaf, ids) && id != "" && id !in d.messages
    requires open != {} && ChainPending(d.messages, ids, open)
    requires var d' := WithToolEvent(d, StepKey(ts), id, Stored(ts.leaf, "", Plain(Tool, parts)));
      IsChain(d'.messages, id, ids')
    ensures var d' := WithToolEvent(d, StepKey(ts), id, Stored(ts.leaf, "", Plain(Tool, parts)));
      ChainPending(d'.messages, ids', open - PartResultIds(parts))
  {
    hide IsChain, ChainPending;
    var m, stored := d.messages, Stored(ts.leaf, "", Plain(Tool, parts));
    ToolMessageScanned(m, ids, ts.leaf, id, stored, open);
    ChainExtended(m, id, stored, ids);
    ChainUnique(m[id := stored], id, ids', ids + [id]);
  }

  /** What an undisturbed turn that waits for an answer has open. */
  lemma WaitingHasOpen(d: Disk, ids: seq<string>)
    requires Cancellable(d) && PhaseReady(d, d.turn.value, ids, true, [])
    ensures var k := StepKey(d.turn.value);
      && k in d.results && IsChain(d.messages, d.turn.value.leaf, ids)
      && Unresolved(d, k) != {} && ChainPending(d.messages, ids, Unresolved(d, k))
  {
  }

  /** CancelWaitingTurn: the pending call, and no other, gets a denied result;
      then the turn is completed. In an undisturbed thread with every write done
      the history that the turn stopped on stays open, and the one that ends in
      the denied result is tool-closed exactly when no other call was open. The
      turn is stranded exactly when its record was saved and not removed. */
  method CancelWaitingTurn(dir: ThreadDir, givenReason: string)
    returns (cancelled: bool, ghost denied: string, ghost saved: bool, ghost removed: bool)
    requires dir.Valid() && Resting(dir.disk, dir.IsCalm())
    modifies dir
    ensures dir.Valid() && old(dir.log) <= dir.log && Resting(dir.disk, dir.IsCalm())
    ensures dir.IsCalm() ==> old(dir.IsCalm()) && dir.disk == old(dir.disk)
    ensures MessagesKept(old(dir.disk.messages), dir.disk.messages)
    ensures !Cancellable(old(dir.disk)) ==> !cancelled && dir.disk == old(dir.disk)
    ensures Cancellable(old(dir.disk)) ==>
      && (Stranded(dir.disk) <==> saved && !removed)
      && (dir.disk.turn.None? <==> removed)
      && (!saved ==> dir.disk.turn == old(dir.disk.turn))
    ensures cancelled ==>
      && saved && Cancellable(old(dir.disk))
      && var k := StepKey(old(dir.disk).turn.value);
      && Answered(dir.disk, k) == Answered(old(dir.disk), k) + {AskedBy(old(dir.disk))}
      && DeniedAt(dir.disk.messages, denied, AskedBy(old(dir.disk)), old(dir.disk).turn.value.pending,
           if TrimSpace(givenReason) == "" then "cancelled" else givenReason)
    ensures cancelled && old(dir.IsCalm()) ==>
      && StepKey(old(dir.disk).turn.value) in old(dir.disk).results
      && !ClosedAt(dir.disk, old(dir.disk).turn.value.leaf)
      && (ClosedAt(dir.disk, denied) <==>
            Unresolved(old(dir.disk), StepKey(old(dir.disk).turn.value)) == {AskedBy(old(dir.disk))})
  {
    hide LegalRun, Consistent, Savable, dir.Valid, dir.IsCalm, Resting, PhaseReady, Worked, AtStep, Answered,
      MessagesKept, ClosedAt, IsChain, ChainPending, Unresolved, TrimSpace, DeniedAt, MaxStepsReminder, WithMetadata,
      TurnConsistent;
    cancelled, denied, saved, removed := false, "", false, false;
    ghost var d, calm := dir.disk, dir.IsCalm();
    KeptAlready(d.messages);
    if !Cancellable(dir.disk) {
      return;
    }
    dir.DiskFacts();
    var ts := dir.disk.turn.value;
    var question := dir.disk.questions[AskKey(ts.id, ts.pending)];
    var reason := if TrimSpace(givenReason) == "" then "cancelled" else givenReason;
    ghost var ids := RestingReady(d, calm);
    WaitingIsAtStep(d, ts, ids, calm);
    AtStepFacts(d, ts, ids, false);
    if calm {
      WaitingHasOpen(d, ids);
    }
    ghost var open := Unresolved(d, StepKey(ts));
    CancellingNoted(dir);
    NotCalmRests(dir.disk);
    var lc := new LoopContext(dir, ts, ids);
    var o := DenyPending(lc, question, reason, open);
    WorkedKeeps(d, ts, dir.disk, lc.ts);
    NotCalmRests(dir.disk);
    if o != Written {
      return;
    }
    ghost var after := dir.disk;
    PendingDropped(after, lc.ts, lc.chain);
    lc.ts := lc.ts.(pending := "");
    AtStepFacts(after, lc.ts, lc.chain, false);
    dir.DiskFacts();
    var f;
    f, saved, removed := lc.CompleteTurn();
    NotCalmRests(dir.disk);
    TurnRecordOnly(after, dir.disk.turn, StepKey(ts));
    cancelled, denied := f == LoopContinue, lc.ts.leaf;
    if calm {
      CancelledLeaves(d, ids, dir.disk, denied, lc.chain, open, question.callId);
    }
  }

  lemma CancelledLeaves(
    d: Disk, ids: seq<string>, d': Disk, denied: string, ids': seq<string>, open: set<string>, asked: string)
    requires d.turn.Some? && MessagesKept(d.messages, d'.messages) && open != {}
    requires IsChain(d.messages, d.turn.value.leaf, ids) && ChainPending(d.messages, ids, open)
    requires IsChain(d'.messages, denied, ids') && ChainPending(d'.messages, ids', open - {asked})
    ensures !ClosedAt(d', d.turn.value.leaf)
    ensures ClosedAt(d', denied) <==> open == {asked}
  {
    hide ClosedAt;
    ChainKept(d.messages, d'.messages, d.turn.value.leaf, ids);
    ClosedExactly(d', d.turn.value.leaf, ids, open);
    ClosedExactly(d', denied, ids', open - {asked});
  }

  // ----- A whole thread

  /** A prompt starts where the last turn ended, at the root, or at any message
      that the caller names. `Put` saves a message outside of any turn: the
      opening messages of a thread, or a prompt that needs no answer. */
  datatype Request =
    | Prompt(preludes: seq<Message>, userParts: seq<Part>, from: Option<string>)
    | Put(msg: Message, fromRoot: bool)
    | Resume
    | GiveAnswer(approvalId: string, answer: string)
    | Cancel(reason: string)

  predicate WellFormed(r: Request) {
    && (r.Prompt? ==> forall i :: 0 <= i < |r.preludes| ==> r.preludes[i].role == User)
    && (r.Put? ==> r.msg.role == User || r.msg.role == System)
  }

  /** The request starts a turn after the last one or at the root. */
  predicate StartsAtEnd(r: Request) {
    r.Prompt? && r.from.Some? ==> r.from.value == ""
  }

  /** Where the next turn may start: after the last one, or at the root. */
  ghost predicate Startable(d: Disk, calm: bool, leaf: string) {
    && (leaf == "" || leaf in d.messages)
    && (calm && d.turn.None? ==> ClosedAt(d, leaf))
  }

  lemma RootIsClosed(d: Disk)
    ensures ClosedAt(d, "")
  {
    assert IsChain(d.messages, "", []);
  }

  /** A message under `leaf` while no turn is on disk. */
  method PutMessage(dir: ThreadDir, leaf: string, msg: Message) returns (end: string)
    requires dir.Valid() && (leaf == "" || leaf in dir.disk.messages) && dir.disk.turn.None?
    requires (msg.role == User || msg.role == System) && (dir.IsCalm() ==> ClosedAt(dir.disk, leaf))
    modifies dir
    ensures dir.Valid() && old(dir.log) <= dir.log && dir.disk.turn.None?
    ensures dir.IsCalm() ==> old(dir.IsCalm()) && ClosedAt(dir.disk, end)
    ensures end == "" || end in dir.disk.messages
    ensures end == leaf || (end !in old(dir.disk.messages) &&
      dir.disk == WithMessage(old(dir.disk), end, Stored(leaf, "", msg.(id := end))))
  {
    hide LegalRun, Consistent, ChainPending, ChildrenQuiet, Grounded, IsChain, MessagesKept, dir.Valid, dir.IsCalm,
      ClosedAt;
    dir.DiskGrounded();
    ghost var ids := OpeningChain(dir.disk, leaf);
    var id := dir.FreshId();
    var o := SaveUserMessage(dir, leaf, id, msg.(id := id), ids);
    if o != Written {
      return leaf;
    }
    end := id;
    if dir.IsCalm() {
      ClosedExactly(dir.disk, id, ids + [id], {});
    }
  }

  /** One request to a thread; a prompt is refused while a turn is on disk.
      Once stranded, a thread stays as it is whatever it is asked. */
  method Serve(dir: ThreadDir, r: Request, leaf: string) returns (end: string)
    requires dir.Valid() && Resting(dir.disk, dir.IsCalm()) && Startable(dir.disk, dir.IsCalm(), leaf)
    requires WellFormed(r) && (dir.closedStarts ==> StartsAtEnd(r))
    modifies dir
    ensures dir.Valid() && old(dir.log) <= dir.log
    ensures Resting(dir.disk, dir.IsCalm()) && Startable(dir.disk, dir.IsCalm(), end)
    ensures dir.IsCalm() ==> old(dir.IsCalm())
    ensures Stranded(old(dir.disk)) ==>
      Stranded(dir.disk) && dir.disk == old(dir.disk).(answers := dir.disk.answers)
  {
    hide LegalRun, Consistent, dir.Valid, dir.IsCalm, ClosedAt, Resting;
    end := leaf;
    dir.DiskFacts();
    if Stranded(dir.disk) {
      StrandedWaits(dir.disk);
    }
    RootIsClosed(dir.disk);
    match r
    case Prompt(preludes, userParts, from) =>
      var start := if from.None? then leaf else from.value;
      if dir.disk.turn.Some? || (start != "" && start !in dir.disk.messages) {
        return;
      }
      var f;
      f, end := RunTurn(dir, start, preludes, userParts);
    case Put(msg, fromRoot) =>
      if dir.disk.turn.Some? {
        return;
      }
      end := PutMessage(dir, if fromRoot then "" else leaf, msg);
      NothingRests(dir.disk, dir.IsCalm());
    case Resume =>
      if dir.disk.turn.None? {
        return;
      }
      var f;
      f, end := ResumeTurn(dir);
    case GiveAnswer(approvalId, answer) =>
      var accepted, o := SubmitAnswer(dir, approvalId, answer);
    case Cancel(reason) =>
      ghost var denied, saved, removed;
      var cancelled;
      cancelled, denied, saved, removed := CancelWaitingTurn(dir, reason);
  }

  /** Any thread, from its first request on: its log is a legal run. When every
      prompt starts after the last turn or at the root, turns were started on
      tool-closed histories for as long as nothing went wrong. */
  method ServeAll(requests: seq<Request>, ghost closedStarts: bool) returns (dir: ThreadDir)
    requires forall r :: r in requests ==> WellFormed(r) && (closedStarts ==> StartsAtEnd(r))
    ensures fresh(dir) && dir.Valid() && LegalRun(dir.log) && (closedStarts ==> StartsClosed(dir.log))
  {
    hide LegalRun, Consistent, ClosedAt, StartsClosed, dir.IsCalm, WellFormed;
    dir := new ThreadDir(closedStarts);
    RootIsClosed(dir.disk);
    var leaf := "";
    for n := 0 to |requests|
      invariant fresh(dir) && dir.closedStarts == closedStarts && dir.Valid()
      invariant Resting(dir.disk, dir.IsCalm()) && Startable(dir.disk, dir.IsCalm(), leaf)
    {
      leaf := Serve(dir, requests[n], leaf);
    }
  }
}
