/** Stream chunks and the accumulator that turns them into one message. */
module Accumulator {
  import opened Messages
  import opened Text

  /** Provider chunks, plus one constructor for every chunk kind that only the
      orchestrator emits and the accumulator does not look at. */
  datatype Chunk =
    | TextStart(id: string)
    | TextDelta(id: string, delta: string, meta: string)
    | TextEnd(id: string)
    | ReasoningStart(id: string)
    | ReasoningDelta(id: string, delta: string, meta: string)
    | ReasoningEnd(id: string, meta: string)
    | ToolInputStart(callId: string, toolName: string, providerExecuted: Option<bool>)
    | ToolInputDelta(callId: string, inputDelta: string)
    | ToolInputEnd(callId: string)
    | ToolCallChunk(callId: string, toolName: string, input: string, providerExecuted: Option<bool>)
    | ToolResultChunk(callId: string, toolName: string, result: string, isError: bool)
    | ApprovalRequestChunk(approvalId: string, callId: string)
    | FileChunk(data: string, mediaType: string)
    | SourceChunk(sourceId: string)
    | StreamStart(warnings: string)
    | Finish(reason: string)
    | ResponseMetadata(responseId: string)
    | ErrorChunk(errorText: string)
    | StartChunk(messageId: string)
    | OtherChunk(kind: string, payload: string)

  /** An open streaming tool call: where its part is and the input so far. */
  datatype ActiveInput = ActiveInput(index: nat, buffer: string)

  datatype AccState = AccState(
    parts: seq<Part>,
    activeText: map<string, nat>,
    activeReasoning: map<string, nat>,
    activeInput: map<string, ActiveInput>,
    sources: seq<Chunk>,
    finish: Option<Chunk>,
    responseId: string,
    warnings: string,
    errors: seq<Chunk>)

  ghost predicate TextOpen(parts: seq<Part>, active: map<string, nat>) {
    forall id :: id in active ==> active[id] < |parts| && parts[active[id]].TextPart?
  }

  ghost predicate ReasoningOpen(parts: seq<Part>, active: map<string, nat>) {
    forall id :: id in active ==> active[id] < |parts| && parts[active[id]].ReasoningPart?
  }

  /** No two open tool inputs share a part. */
  ghost predicate InputOpen(parts: seq<Part>, active: map<string, ActiveInput>) {
    && (forall id :: id in active ==> active[id].index < |parts| && parts[active[id].index].ToolCallPart?)
    && (forall a, b :: a in active && b in active && a != b ==> active[a].index != active[b].index)
  }

  /** Every open block points at a part of its own kind. */
  ghost predicate Valid(s: AccState) {
    && TextOpen(s.parts, s.activeText)
    && ReasoningOpen(s.parts, s.activeReasoning)
    && InputOpen(s.parts, s.activeInput)
  }

  const INITIAL := AccState([], map[], map[], map[], [], None, "", "", [])

  /** A text or reasoning part with `delta` added to its text. */
  function WithDelta(p: Part, delta: string): (q: Part)
    ensures SameKind(p, q)
  {
    match p
    case TextPart(id, text, meta) => TextPart(id, text + delta, meta)
    case ReasoningPart(id, text, meta) => ReasoningPart(id, text + delta, meta)
    case _ => p
  }

  function WithMeta(p: Part, meta: string): (q: Part)
    ensures SameKind(p, q)
  {
    match p
    case ReasoningPart(id, text, before) => ReasoningPart(id, text, if meta == "" then before else meta)
    case _ => p
  }

  function WithInput(p: Part, input: string): (q: Part)
    ensures SameKind(p, q)
  {
    match p
    case ToolCallPart(callId, toolName, _, executed) => ToolCallPart(callId, toolName, input, executed)
    case _ => p
  }

  ghost predicate SameKind(p: Part, q: Part) {
    p.TextPart? == q.TextPart? && p.ReasoningPart? == q.ReasoningPart? && p.ToolCallPart? == q.ToolCallPart?
  }

  ghost predicate SameKinds(a: seq<Part>, b: seq<Part>) {
    |a| <= |b| && forall i :: 0 <= i < |a| ==> SameKind(a[i], b[i])
  }

  function AddDelta(parts: seq<Part>, i: nat, delta: string): seq<Part> {
    if i < |parts| then parts[i := WithDelta(parts[i], delta)] else parts
  }

  function SetMeta(parts: seq<Part>, i: nat, meta: string): seq<Part> {
    if i < |parts| then parts[i := WithMeta(parts[i], meta)] else parts
  }

  function SetInput(parts: seq<Part>, i: nat, input: string): seq<Part> {
    if i < |parts| then parts[i := WithInput(parts[i], input)] else parts
  }

  /** What one chunk does to the parts collected so far. */
  function PushParts(s: AccState, chunk: Chunk): (parts: seq<Part>)
    ensures SameKinds(s.parts, parts)
  {
    match chunk
    case TextStart(id) => s.parts + [TextPart(id, "", "")]
    case TextDelta(id, delta, _) =>
      if id in s.activeText then AddDelta(s.parts, s.activeText[id], delta) else s.parts
    case ReasoningStart(id) => s.parts + [ReasoningPart(id, "", "")]
    case ReasoningDelta(id, delta, _) =>
      if id in s.activeReasoning then AddDelta(s.parts, s.activeReasoning[id], delta) else s.parts
    case ReasoningEnd(id, meta) =>
      if id in s.activeReasoning then SetMeta(s.parts, s.activeReasoning[id], meta) else s.parts
    case ToolInputStart(callId, toolName, executed) =>
      s.parts + [ToolCallPart(callId, toolName, "", executed)]
    case ToolInputEnd(callId) =>
      if callId in s.activeInput
      then SetInput(s.parts, s.activeInput[callId].index, TrimSpace(s.activeInput[callId].buffer))
      else s.parts
    case ToolCallChunk(callId, toolName, input, executed) =>
      s.parts + [ToolCallPart(callId, toolName, input, executed)]
    case ToolResultChunk(callId, toolName, result, isError) =>
      s.parts + [ToolResultPart(callId, toolName, if isError then ErrorJsonOutput(result) else JsonOutput(result))]
    case ApprovalRequestChunk(approvalId, callId) => s.parts + [ApprovalRequestPart(approvalId, callId)]
    case FileChunk(data, mediaType) => s.parts + [FilePart(data, mediaType, "", "")]
    case _ => s.parts
  }

  /** What one chunk does to the open text and reasoning blocks. */
  function PushOpen(s: AccState, chunk: Chunk): (map<string, nat>, map<string, nat>) {
    match chunk
    case TextStart(id) => (s.activeText[id := |s.parts|], s.activeReasoning)
    case TextEnd(id) => (s.activeText - {id}, s.activeReasoning)
    case ReasoningStart(id) => (s.activeText, s.activeReasoning[id := |s.parts|])
    case ReasoningEnd(id, _) => (s.activeText, s.activeReasoning - {id})
    case _ => (s.activeText, s.activeReasoning)
  }

  /** What one chunk does to the open tool inputs. */
  function PushInput(s: AccState, chunk: Chunk): map<string, ActiveInput> {
    match chunk
    case ToolInputStart(callId, _, _) => s.activeInput[callId := ActiveInput(|s.parts|, "")]
    case ToolInputDelta(callId, delta) =>
      if callId in s.activeInput
      then s.activeInput[callId := ActiveInput(s.activeInput[callId].index, s.activeInput[callId].buffer + delta)]
      else s.activeInput
    case ToolInputEnd(callId) => s.activeInput - {callId}
    case _ => s.activeInput
  }

  /** One chunk read by an open accumulator. */
  function AfterChunk(s: AccState, chunk: Chunk): AccState {
    AccState(
      PushParts(s, chunk),
      PushOpen(s, chunk).0,
      PushOpen(s, chunk).1,
      PushInput(s, chunk),
      if chunk.SourceChunk? then s.sources + [chunk] else s.sources,
      if chunk.Finish? then Some(chunk) else s.finish,
      if chunk.ResponseMetadata? then chunk.responseId else s.responseId,
      if chunk.StreamStart? then chunk.warnings else s.warnings,
      if chunk.ErrorChunk? then s.errors + [chunk] else s.errors)
  }

  lemma StartsPush(s: AccState, chunk: Chunk)
    ensures chunk.TextStart? ==> PushParts(s, chunk) == s.parts + [TextPart(chunk.id, "", "")]
    ensures chunk.ReasoningStart? ==> PushParts(s, chunk) == s.parts + [ReasoningPart(chunk.id, "", "")]
    ensures chunk.ToolInputStart? ==>
      PushParts(s, chunk) == s.parts + [ToolCallPart(chunk.callId, chunk.toolName, "", chunk.providerExecuted)]
  {
  }

  lemma PushBlocksOpen(s: AccState, chunk: Chunk)
    requires TextOpen(s.parts, s.activeText) && ReasoningOpen(s.parts, s.activeReasoning)
    ensures TextOpen(PushParts(s, chunk), PushOpen(s, chunk).0)
    ensures ReasoningOpen(PushParts(s, chunk), PushOpen(s, chunk).1)
  {
    hide PushParts;
    StartsPush(s, chunk);
  }

  lemma PushInputsOpen(s: AccState, chunk: Chunk)
    requires InputOpen(s.parts, s.activeInput)
    ensures InputOpen(PushParts(s, chunk), PushInput(s, chunk))
  {
    hide PushParts;
    StartsPush(s, chunk);
  }

  /** Reading a chunk never leaves an open block pointing at a foreign part. */
  lemma PushValid(s: AccState, chunk: Chunk)
    requires Valid(s)
    ensures Valid(AfterChunk(s, chunk))
  {
    hide PushParts, PushOpen, PushInput, TextOpen, ReasoningOpen, InputOpen;
    PushBlocksOpen(s, chunk);
    PushInputsOpen(s, chunk);
  }

  /** The meaning of a chunk stream read from state `s`. */
  function Accumulate(s: AccState, chunks: seq<Chunk>): AccState {
    if chunks == [] then s
    else AfterChunk(Accumulate(s, chunks[..|chunks| - 1]), chunks[|chunks| - 1])
  }

  lemma AccumulateSnoc(s: AccState, chunks: seq<Chunk>, chunk: Chunk)
    ensures Accumulate(s, chunks + [chunk]) == AfterChunk(Accumulate(s, chunks), chunk)
  {
    assert (chunks + [chunk])[..|chunks|] == chunks;
  }

  lemma {:induction false} AccumulateConcat(s: AccState, a: seq<Chunk>, b: seq<Chunk>)
    ensures Accumulate(s, a + b) == Accumulate(Accumulate(s, a), b)
  {
    if b == [] {
      assert a + b == a;
    } else {
      var front := b[..|b| - 1];
      assert (a + b)[..|a + b| - 1] == a + front;
      AccumulateConcat(s, a, front);
    }
  }

  /** No open tool input owns part `i`. */
  ghost predicate NotOpen(s: AccState, i: nat) {
    forall id :: id in s.activeInput ==> s.activeInput[id].index != i
  }

  /** The part of open input `id` once it is finalised. */
  function Finalised(s: AccState, id: string): Part
    requires id in s.activeInput && s.activeInput[id].index < |s.parts|
  {
    WithInput(s.parts[s.activeInput[id].index], TrimSpace(s.activeInput[id].buffer))
  }

  /** `parts` once every open tool input outside `rest` is finalised with its
      trimmed buffer and everything else is untouched. */
  ghost predicate PartlyClosed(s: AccState, rest: set<string>, parts: seq<Part>)
    requires Valid(s)
  {
    && |parts| == |s.parts|
    && (forall id :: id in s.activeInput ==>
          parts[s.activeInput[id].index] == if id in rest then s.parts[s.activeInput[id].index] else Finalised(s, id))
    && (forall i :: 0 <= i < |parts| && NotOpen(s, i) ==> parts[i] == s.parts[i])
  }

  /** `parts` is what Close leaves behind. */
  ghost predicate IsClosed(s: AccState, parts: seq<Part>)
    requires Valid(s)
  {
    PartlyClosed(s, {}, parts)
  }

  lemma CloseOne(s: AccState, rest: set<string>, parts: seq<Part>, id: string)
    requires Valid(s) && PartlyClosed(s, rest, parts) && id in rest && id in s.activeInput
    ensures PartlyClosed(s, rest - {id}, parts[s.activeInput[id].index := Finalised(s, id)])
  {
  }

  /** Whatever order the map is walked in, Close leaves the same parts. */
  lemma ClosedUnique(s: AccState, a: seq<Part>, b: seq<Part>)
    requires Valid(s) && IsClosed(s, a) && IsClosed(s, b)
    ensures a == b
  {
    forall i | 0 <= i < |a|
      ensures a[i] == b[i]
    {
      if !NotOpen(s, i) {
        var id :| id in s.activeInput && s.activeInput[id].index == i;
      }
    }
  }

  lemma {:induction false} AccumulateValid(s: AccState, chunks: seq<Chunk>)
    requires Valid(s)
    ensures Valid(Accumulate(s, chunks))
  {
    if chunks != [] {
      AccumulateValid(s, chunks[..|chunks| - 1]);
      PushValid(Accumulate(s, chunks[..|chunks| - 1]), chunks[|chunks| - 1]);
    }
  }

  /** `parts` are the parts of the message that a whole stream means. */
  ghost predicate StreamParts(chunks: seq<Chunk>, parts: seq<Part>) {
    var s := Accumulate(INITIAL, chunks);
    Valid(s) && IsClosed(s, parts)
  }

  /** The source's accumulator object: one field per part of the state. */
  class ChunkAccumulator {
    var parts: seq<Part>
    var activeText: map<string, nat>
    var activeReasoning: map<string, nat>
    var activeInput: map<string, ActiveInput>
    var sources: seq<Chunk>
    var finish: Option<Chunk>
    var responseId: string
    var warnings: string
    var errors: seq<Chunk>
    var closed: bool

    ghost function State(): AccState
      reads this
    {
      AccState(parts, activeText, activeReasoning, activeInput, sources, finish, responseId, warnings, errors)
    }

    constructor ()
      ensures State() == INITIAL && !closed && Valid(State())
    {
      parts, sources, errors := [], [], [];
      activeText, activeReasoning, activeInput := map[], map[], map[];
      finish, responseId, warnings, closed := None, "", "", false;
    }

    method Push(chunk: Chunk)
      requires Valid(State())
      modifies this
      ensures closed == old(closed) && Valid(State())
      ensures State() == if old(closed) then old(State()) else AfterChunk(old(State()), chunk)
    {
      if closed {
        return;
      }
      PushValid(State(), chunk);
      match chunk
      case TextStart(_) => PushBlock(chunk);
      case TextDelta(_, _, _) => PushBlock(chunk);
      case TextEnd(_) => PushBlock(chunk);
      case ReasoningStart(_) => PushBlock(chunk);
      case ReasoningDelta(_, _, _) => PushBlock(chunk);
      case ReasoningEnd(_, _) => PushBlock(chunk);
      case ToolInputStart(_, _, _) => PushToolInput(chunk);
      case ToolInputDelta(_, _) => PushToolInput(chunk);
      case ToolInputEnd(_) => PushToolInput(chunk);
      case SourceChunk(_) => sources := sources + [chunk];
      case StreamStart(w) => warnings := w;
      case Finish(_) => finish := Some(chunk);
      case ResponseMetadata(id) => responseId := id;
      case ErrorChunk(_) => errors := errors + [chunk];
      case StartChunk(_) =>
      case OtherChunk(_, _) =>
      case _ => PushWholePart(chunk);
    }

    /** Text and reasoning blocks. */
    method PushBlock(chunk: Chunk)
      requires Valid(State())
      requires chunk.TextStart? || chunk.TextDelta? || chunk.TextEnd? ||
               chunk.ReasoningStart? || chunk.ReasoningDelta? || chunk.ReasoningEnd?
      modifies this`parts, this`activeText, this`activeReasoning
      ensures State() == AfterChunk(old(State()), chunk)
    {
      match chunk
      case TextStart(id) =>
        var idx := |parts|;
        parts := parts + [TextPart(id, "", "")];
        activeText := activeText[id := idx];
      case TextDelta(id, delta, _) =>
        if id in activeText {
          var idx := activeText[id];
          parts := parts[idx := WithDelta(parts[idx], delta)];
        }
      case TextEnd(id) =>
        activeText := activeText - {id};
      case ReasoningStart(id) =>
        var idx := |parts|;
        parts := parts + [ReasoningPart(id, "", "")];
        activeReasoning := activeReasoning[id := idx];
      case ReasoningDelta(id, delta, _) =>
        if id in activeReasoning {
          var idx := activeReasoning[id];
          parts := parts[idx := WithDelta(parts[idx], delta)];
        }
      case ReasoningEnd(id, meta) =>
        if id in activeReasoning {
          if meta != "" {
            var idx := activeReasoning[id];
            parts := parts[idx := WithMeta(parts[idx], meta)];
          }
        }
        activeReasoning := activeReasoning - {id};
    }

    /** Streaming tool inputs. */
    method PushToolInput(chunk: Chunk)
      requires Valid(State())
      requires chunk.ToolInputStart? || chunk.ToolInputDelta? || chunk.ToolInputEnd?
      modifies this`parts, this`activeInput
      ensures State() == AfterChunk(old(State()), chunk)
    {
      match chunk
      case ToolInputStart(callId, toolName, executed) =>
        var idx := |parts|;
        parts := parts + [ToolCallPart(callId, toolName, "", executed)];
        activeInput := activeInput[callId := ActiveInput(idx, "")];
      case ToolInputDelta(callId, delta) =>
        if callId in activeInput {
          var active := activeInput[callId];
          activeInput := activeInput[callId := ActiveInput(active.index, active.buffer + delta)];
        }
      case ToolInputEnd(callId) =>
        if callId in activeInput {
          var active := activeInput[callId];
          parts := parts[active.index := WithInput(parts[active.index], TrimSpace(active.buffer))];
          activeInput := activeInput - {callId};
        }
    }

    /** Chunks that are a whole part by themselves. */
    method PushWholePart(chunk: Chunk)
      requires chunk.ToolCallChunk? || chunk.ToolResultChunk? || chunk.ApprovalRequestChunk? || chunk.FileChunk?
      modifies this`parts
      ensures State() == AfterChunk(old(State()), chunk)
    {
      match chunk
      case ToolCallChunk(callId, toolName, input, executed) =>
        parts := parts + [ToolCallPart(callId, toolName, input, executed)];
      case ToolResultChunk(callId, toolName, result, isError) =>
        var output := if isError then ErrorJsonOutput(result) else JsonOutput(result);
        parts := parts + [ToolResultPart(callId, toolName, output)];
      case ApprovalRequestChunk(approvalId, callId) =>
        parts := parts + [ApprovalRequestPart(approvalId, callId)];
      case FileChunk(data, mediaType) =>
        parts := parts + [FilePart(data, mediaType, "", "")];
    }

    /** Finalises every open tool input, in whatever order the map is walked. */
    method Close()
      requires Valid(State())
      modifies this
      ensures closed && Valid(State())
      ensures !old(closed) ==> IsClosed(old(State()), parts) && responseId == old(responseId)
      ensures old(closed) ==> State() == old(State())
    {
      if closed {
        return;
      }
      closed := true;
      activeText, activeReasoning := map[], map[];
      ghost var before := old(State());
      while activeInput != map[]
        invariant closed && activeText == map[] && activeReasoning == map[] && responseId == before.responseId
        invariant forall id :: id in activeInput ==> id in before.activeInput && before.activeInput[id] == activeInput[id]
        invariant PartlyClosed(before, activeInput.Keys, parts)
        decreases activeInput.Keys
      {
        var id :| id in activeInput;
        var active := activeInput[id];
        CloseOne(before, activeInput.Keys, parts, id);
        parts := parts[active.index := WithInput(parts[active.index], TrimSpace(active.buffer))];
        activeInput := activeInput - {id};
      }
    }

    method GetMessage() returns (msg: Message)
      ensures msg == Plain(Assistant, parts).(id := responseId)
    {
      msg := Message(responseId, Assistant, parts, "", false, "", "");
    }
  }
}
