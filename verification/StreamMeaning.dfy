/** What a provider's stream means, read off the list of its chunks: one part for
    every chunk that begins a block or is a whole part. */
module StreamMeaning {
  import opened Messages
  import opened Text
  import opened Accumulator

  predicate Adds(c: Chunk) {
    c.TextStart? || c.ReasoningStart? || c.ToolInputStart? ||
    c.ToolCallChunk? || c.ToolResultChunk? || c.ApprovalRequestChunk? || c.FileChunk?
  }

  /** The chunk begins or ends a block with the ID. */
  predicate BoundsText(c: Chunk, id: string) {
    (c.TextStart? || c.TextEnd?) && c.id == id
  }

  predicate BoundsReasoning(c: Chunk, id: string) {
    (c.ReasoningStart? || c.ReasoningEnd?) && c.id == id
  }

  predicate BoundsInput(c: Chunk, callId: string) {
    (c.ToolInputStart? || c.ToolInputEnd?) && c.callId == callId
  }

  /** The deltas of the block that is open in front of `rest`, in order, up to its
      end or to another start with its ID. */
  function TextSaid(rest: seq<Chunk>, id: string): string {
    if rest == [] || BoundsText(rest[0], id) then ""
    else (if rest[0].TextDelta? && rest[0].id == id then rest[0].delta else "") + TextSaid(rest[1..], id)
  }

  function ReasoningSaid(rest: seq<Chunk>, id: string): string {
    if rest == [] || BoundsReasoning(rest[0], id) then ""
    else (if rest[0].ReasoningDelta? && rest[0].id == id then rest[0].delta else "") + ReasoningSaid(rest[1..], id)
  }

  function InputSaid(rest: seq<Chunk>, callId: string): string {
    if rest == [] || BoundsInput(rest[0], callId) then ""
    else (if rest[0].ToolInputDelta? && rest[0].callId == callId then rest[0].inputDelta else "") + InputSaid(rest[1..], callId)
  }

  /** What the end of the reasoning block adds. */
  function ReasoningMeta(rest: seq<Chunk>, id: string): string {
    if rest == [] then ""
    else if BoundsReasoning(rest[0], id) then (if rest[0].ReasoningEnd? then rest[0].meta else "")
    else ReasoningMeta(rest[1..], id)
  }

  /** The tool input is started again before it ended; its first part is left empty. */
  predicate Restarted(rest: seq<Chunk>, callId: string) {
    rest != [] && if BoundsInput(rest[0], callId) then rest[0].ToolInputStart? else Restarted(rest[1..], callId)
  }

  /** The part that chunk `c` stands for when `rest` follows it. */
  function Said(c: Chunk, rest: seq<Chunk>): Part
    requires Adds(c)
  {
    match c
    case TextStart(id) => TextPart(id, TextSaid(rest, id), "")
    case ReasoningStart(id) => ReasoningPart(id, ReasoningSaid(rest, id), ReasoningMeta(rest, id))
    case ToolInputStart(callId, toolName, executed) =>
      ToolCallPart(callId, toolName, if Restarted(rest, callId) then "" else TrimSpace(InputSaid(rest, callId)), executed)
    case ToolCallChunk(callId, toolName, input, executed) => ToolCallPart(callId, toolName, input, executed)
    case ToolResultChunk(callId, toolName, result, isError) =>
      ToolResultPart(callId, toolName, if isError then ErrorJsonOutput(result) else JsonOutput(result))
    case ApprovalRequestChunk(approvalId, callId) => ApprovalRequestPart(approvalId, callId)
    case FileChunk(data, mediaType) => FilePart(data, mediaType, "", "")
  }

  function Meaning(chunks: seq<Chunk>): seq<Part> {
    if chunks == [] then []
    else (if Adds(chunks[0]) then [Said(chunks[0], chunks[1..])] else []) + Meaning(chunks[1..])
  }

  // ----- One chunk more

  predicate TextOpenIn(rest: seq<Chunk>, id: string) {
    forall c :: c in rest ==> !BoundsText(c, id)
  }

  predicate ReasoningOpenIn(rest: seq<Chunk>, id: string) {
    forall c :: c in rest ==> !BoundsReasoning(c, id)
  }

  predicate InputOpenIn(rest: seq<Chunk>, callId: string) {
    forall c :: c in rest ==> !BoundsInput(c, callId)
  }

  lemma Front(rest: seq<Chunk>, c: Chunk)
    requires rest != []
    ensures (rest + [c])[0] == rest[0] && (rest + [c])[1..] == rest[1..] + [c]
    ensures forall x :: x in rest <==> x == rest[0] || x in rest[1..]
  {
    assert rest == [rest[0]] + rest[1..];
  }

  lemma {:induction false} TextMore(rest: seq<Chunk>, c: Chunk, id: string)
    ensures TextSaid(rest + [c], id) == TextSaid(rest, id) +
      if TextOpenIn(rest, id) && c.TextDelta? && c.id == id then c.delta else ""
  {
    if rest == [] {
      assert rest + [c] == [c] && [c][1..] == [];
    } else {
      Front(rest, c);
      TextMore(rest[1..], c, id);
    }
  }

  lemma {:induction false} ReasoningMore(rest: seq<Chunk>, c: Chunk, id: string)
    ensures ReasoningSaid(rest + [c], id) == ReasoningSaid(rest, id) +
      if ReasoningOpenIn(rest, id) && c.ReasoningDelta? && c.id == id then c.delta else ""
    ensures ReasoningMeta(rest + [c], id) ==
      if ReasoningOpenIn(rest, id) && c.ReasoningEnd? && c.id == id then c.meta else ReasoningMeta(rest, id)
    ensures ReasoningOpenIn(rest, id) ==> ReasoningMeta(rest, id) == ""
  {
    if rest == [] {
      assert rest + [c] == [c] && [c][1..] == [];
    } else {
      Front(rest, c);
      ReasoningMore(rest[1..], c, id);
    }
  }

  lemma {:induction false} InputMore(rest: seq<Chunk>, c: Chunk, callId: string)
    ensures InputSaid(rest + [c], callId) == InputSaid(rest, callId) +
      if InputOpenIn(rest, callId) && c.ToolInputDelta? && c.callId == callId then c.inputDelta else ""
    ensures Restarted(rest + [c], callId) <==>
      Restarted(rest, callId) || (InputOpenIn(rest, callId) && c.ToolInputStart? && c.callId == callId)
    ensures InputOpenIn(rest, callId) ==> !Restarted(rest, callId)
  {
    if rest == [] {
      assert rest + [c] == [c] && [c][1..] == [];
    } else {
      Front(rest, c);
      InputMore(rest[1..], c, callId);
    }
  }

  // ----- What the accumulator holds of one block

  /** Part `k` and the open text blocks when `rest` followed the start of `id`. */
  ghost predicate TextAt(s: AccState, k: nat, id: string, rest: seq<Chunk>) {
    && k < |s.parts| && s.parts[k] == TextPart(id, TextSaid(rest, id), "")
    && (TextOpenIn(rest, id) ==> id in s.activeText && s.activeText[id] == k)
    && (forall x :: x in s.activeText && s.activeText[x] == k ==> x == id && TextOpenIn(rest, id))
  }

  ghost predicate ReasoningAt(s: AccState, k: nat, id: string, rest: seq<Chunk>) {
    && k < |s.parts| && s.parts[k] == ReasoningPart(id, ReasoningSaid(rest, id), ReasoningMeta(rest, id))
    && (ReasoningOpenIn(rest, id) ==> id in s.activeReasoning && s.activeReasoning[id] == k)
    && (forall x :: x in s.activeReasoning && s.activeReasoning[x] == k ==> x == id && ReasoningOpenIn(rest, id))
  }

  ghost predicate InputAt(s: AccState, k: nat, start: Chunk, rest: seq<Chunk>)
    requires start.ToolInputStart?
  {
    var id := start.callId;
    && k < |s.parts|
    && s.parts[k] == ToolCallPart(id, start.toolName,
         if InputOpenIn(rest, id) || Restarted(rest, id) then "" else TrimSpace(InputSaid(rest, id)), start.providerExecuted)
    && (InputOpenIn(rest, id) ==> id in s.activeInput && s.activeInput[id] == ActiveInput(k, InputSaid(rest, id)))
    && (forall x :: x in s.activeInput && s.activeInput[x].index == k ==> x == id && InputOpenIn(rest, id))
  }

  /** A whole part that no open block points at. */
  ghost predicate WholeAt(s: AccState, k: nat, p: Part) {
    k < |s.parts| && s.parts[k] == p && NotOpen(s, k) && !p.TextPart? && !p.ReasoningPart?
  }

  /** A chunk changes the part that its own open block points at, and no other. */
  lemma PartAfter(s: AccState, k: nat, c: Chunk)
    requires k < |s.parts|
    ensures k < |PushParts(s, c)|
    ensures PushParts(s, c)[k] ==
      if c.TextDelta? && c.id in s.activeText && s.activeText[c.id] == k then WithDelta(s.parts[k], c.delta)
      else if c.ReasoningDelta? && c.id in s.activeReasoning && s.activeReasoning[c.id] == k then WithDelta(s.parts[k], c.delta)
      else if c.ReasoningEnd? && c.id in s.activeReasoning && s.activeReasoning[c.id] == k then WithMeta(s.parts[k], c.meta)
      else if c.ToolInputEnd? && c.callId in s.activeInput && s.activeInput[c.callId].index == k
      then WithInput(s.parts[k], TrimSpace(s.activeInput[c.callId].buffer))
      else s.parts[k]
  {
    hide WithDelta, WithMeta, WithInput, TrimSpace;
  }

  lemma KindAt(s: AccState, k: nat)
    requires Accumulator.Valid(s) && k < |s.parts|
    ensures !s.parts[k].TextPart? ==> forall x :: x in s.activeText ==> s.activeText[x] != k
    ensures !s.parts[k].ReasoningPart? ==> forall x :: x in s.activeReasoning ==> s.activeReasoning[x] != k
    ensures !s.parts[k].ToolCallPart? ==> NotOpen(s, k)
  {
  }

  lemma TextStep(s: AccState, k: nat, id: string, rest: seq<Chunk>, c: Chunk)
    requires Accumulator.Valid(s) && TextAt(s, k, id, rest)
    ensures TextAt(AfterChunk(s, c), k, id, rest + [c])
  {
    hide TextSaid, PushParts, PushInput, Accumulator.Valid, TextOpenIn;
    TextMore(rest, c, id);
    assert TextOpenIn(rest + [c], id) <==> TextOpenIn(rest, id) && !BoundsText(c, id) by { TextOpenMore(rest, c, id); }
    assert TextSaid(rest, id) + "" == TextSaid(rest, id);
    PartAfter(s, k, c);
    KindAt(s, k);
  }

  lemma TextOpenMore(rest: seq<Chunk>, c: Chunk, id: string)
    ensures TextOpenIn(rest + [c], id) <==> TextOpenIn(rest, id) && !BoundsText(c, id)
  {
  }

  lemma ReasoningStep(s: AccState, k: nat, id: string, rest: seq<Chunk>, c: Chunk)
    requires Accumulator.Valid(s) && ReasoningAt(s, k, id, rest)
    ensures ReasoningAt(AfterChunk(s, c), k, id, rest + [c])
  {
    hide ReasoningSaid, ReasoningMeta, PushParts, PushInput, Accumulator.Valid, ReasoningOpenIn;
    ReasoningMore(rest, c, id);
    assert ReasoningOpenIn(rest + [c], id) <==> ReasoningOpenIn(rest, id) && !BoundsReasoning(c, id) by {
      ReasoningOpenMore(rest, c, id);
    }
    assert ReasoningSaid(rest, id) + "" == ReasoningSaid(rest, id);
    PartAfter(s, k, c);
    KindAt(s, k);
  }

  lemma ReasoningOpenMore(rest: seq<Chunk>, c: Chunk, id: string)
    ensures ReasoningOpenIn(rest + [c], id) <==> ReasoningOpenIn(rest, id) && !BoundsReasoning(c, id)
  {
  }

  lemma InputStep(s: AccState, k: nat, start: Chunk, rest: seq<Chunk>, c: Chunk)
    requires start.ToolInputStart? && Accumulator.Valid(s) && InputAt(s, k, start, rest)
    ensures InputAt(AfterChunk(s, c), k, start, rest + [c])
  {
    hide InputSaid, Restarted, TrimSpace, PushParts, PushOpen, Accumulator.Valid, InputOpenIn;
    var id := start.callId;
    InputMore(rest, c, id);
    assert InputOpenIn(rest + [c], id) <==> InputOpenIn(rest, id) && !BoundsInput(c, id) by { InputOpenMore(rest, c, id); }
    assert InputSaid(rest, id) + "" == InputSaid(rest, id);
    PartAfter(s, k, c);
    KindAt(s, k);
  }

  lemma InputOpenMore(rest: seq<Chunk>, c: Chunk, callId: string)
    ensures InputOpenIn(rest + [c], callId) <==> InputOpenIn(rest, callId) && !BoundsInput(c, callId)
  {
  }

  lemma WholeStep(s: AccState, k: nat, p: Part, c: Chunk)
    requires Accumulator.Valid(s) && WholeAt(s, k, p)
    ensures WholeAt(AfterChunk(s, c), k, p)
  {
    hide TrimSpace, PushParts, PushOpen, Accumulator.Valid;
    PartAfter(s, k, c);
    KindAt(s, k);
  }

  /** The block that chunk `c` begins, or the part that it is. */
  ghost predicate BlockAt(s: AccState, k: nat, c: Chunk, rest: seq<Chunk>)
    requires Adds(c)
  {
    if c.TextStart? then TextAt(s, k, c.id, rest)
    else if c.ReasoningStart? then ReasoningAt(s, k, c.id, rest)
    else if c.ToolInputStart? then InputAt(s, k, c, rest)
    else WholeAt(s, k, Said(c, rest))
  }

  lemma TextBegins(s: AccState, c: Chunk)
    requires Accumulator.Valid(s) && c.TextStart?
    ensures TextAt(AfterChunk(s, c), |s.parts|, c.id, [])
  {
  }

  lemma ReasoningBegins(s: AccState, c: Chunk)
    requires Accumulator.Valid(s) && c.ReasoningStart?
    ensures ReasoningAt(AfterChunk(s, c), |s.parts|, c.id, [])
  {
  }

  lemma InputBegins(s: AccState, c: Chunk)
    requires Accumulator.Valid(s) && c.ToolInputStart?
    ensures InputAt(AfterChunk(s, c), |s.parts|, c, [])
  {
    hide TrimSpace;
  }

  lemma WholeBegins(s: AccState, c: Chunk)
    requires Accumulator.Valid(s) && Adds(c) && !c.TextStart? && !c.ReasoningStart? && !c.ToolInputStart?
    ensures WholeAt(AfterChunk(s, c), |s.parts|, Said(c, []))
  {
    hide TrimSpace;
  }

  lemma BlockBegins(s: AccState, c: Chunk)
    requires Accumulator.Valid(s) && Adds(c)
    ensures BlockAt(AfterChunk(s, c), |s.parts|, c, [])
  {
    hide AfterChunk, TextAt, ReasoningAt, InputAt, WholeAt, Accumulator.Valid;
    if c.TextStart? {
      TextBegins(s, c);
    } else if c.ReasoningStart? {
      ReasoningBegins(s, c);
    } else if c.ToolInputStart? {
      InputBegins(s, c);
    } else {
      WholeBegins(s, c);
    }
  }

  lemma BlockStep(s: AccState, k: nat, c: Chunk, rest: seq<Chunk>, next: Chunk)
    requires Adds(c) && Accumulator.Valid(s) && BlockAt(s, k, c, rest)
    ensures BlockAt(AfterChunk(s, next), k, c, rest + [next])
  {
    hide TextAt, ReasoningAt, InputAt, WholeAt, AfterChunk, Accumulator.Valid;
    if c.TextStart? {
      TextStep(s, k, c.id, rest, next);
    } else if c.ReasoningStart? {
      ReasoningStep(s, k, c.id, rest, next);
    } else if c.ToolInputStart? {
      InputStep(s, k, c, rest, next);
    } else {
      WholeStep(s, k, Said(c, rest), next);
      assert Said(c, rest + [next]) == Said(c, rest);
    }
  }

  lemma InitialIsValid()
    ensures Accumulator.Valid(INITIAL)
  {
  }

  lemma {:induction false} BlockHeld(a: seq<Chunk>, c: Chunk, rest: seq<Chunk>)
    requires Adds(c)
    ensures BlockAt(Accumulate(INITIAL, a + [c] + rest), |Accumulate(INITIAL, a).parts|, c, rest)
  {
    hide BlockAt, AfterChunk, Accumulator.Valid, Accumulate;
    InitialIsValid();
    if rest == [] {
      AccumulateValid(INITIAL, a);
      AccumulateSnoc(INITIAL, a, c);
      BlockBegins(Accumulate(INITIAL, a), c);
      assert a + [c] + [] == a + [c];
    } else {
      var n := |rest| - 1;
      var front, next := rest[..n], rest[n];
      BlockHeld(a, c, front);
      AccumulateValid(INITIAL, a + [c] + front);
      AccumulateSnoc(INITIAL, a + [c] + front, next);
      BlockStep(Accumulate(INITIAL, a + [c] + front), |Accumulate(INITIAL, a).parts|, c, front, next);
      assert a + [c] + rest == a + [c] + front + [next] && front + [next] == rest;
    }
  }

  /** Closing the accumulator leaves just what the chunks said. */
  lemma BlockClosed(s: AccState, k: nat, c: Chunk, rest: seq<Chunk>, parts: seq<Part>)
    requires Adds(c) && Accumulator.Valid(s) && BlockAt(s, k, c, rest) && IsClosed(s, parts)
    ensures k < |parts| && parts[k] == Said(c, rest)
  {
    hide TrimSpace, TextSaid, ReasoningSaid, ReasoningMeta;
    if c.ToolInputStart? {
      InputMore(rest, c, c.callId);
      hide InputSaid, Restarted;
      if InputOpenIn(rest, c.callId) {
        assert s.activeInput[c.callId].index == k;
      }
    }
  }

  // ----- All blocks

  lemma {:induction false} MeaningCut(a: seq<Chunk>, b: seq<Chunk>)
    ensures |Meaning(a + b)| == |Meaning(a)| + |Meaning(b)| && Meaning(a + b)[|Meaning(a)|..] == Meaning(b)
  {
    hide Said;
    if a == [] {
      assert a + b == b;
    } else {
      assert (a + b)[0] == a[0] && (a + b)[1..] == a[1..] + b;
      MeaningCut(a[1..], b);
      if Adds(a[0]) {
        assert Meaning(a + b)[1..] == Meaning(a[1..] + b);
        assert Meaning(a + b)[|Meaning(a)|..] == Meaning(a[1..] + b)[|Meaning(a[1..])|..];
      }
    }
  }

  lemma OneMeaning(c: Chunk)
    ensures |Meaning([c])| == if Adds(c) then 1 else 0
  {
    hide Said;
    assert [c][1..] == [];
  }

  lemma PartsAdded(s: AccState, c: Chunk)
    ensures |AfterChunk(s, c).parts| == |s.parts| + if Adds(c) then 1 else 0
  {
    hide TrimSpace;
  }

  lemma {:induction false} PartsCounted(chunks: seq<Chunk>)
    ensures |Accumulate(INITIAL, chunks).parts| == |Meaning(chunks)|
  {
    hide AfterChunk, Meaning;
    if chunks == [] {
      assert |Meaning([])| == 0 by { NothingMeant(); }
    } else {
      var n := |chunks| - 1;
      PartsCounted(chunks[..n]);
      PartsAdded(Accumulate(INITIAL, chunks[..n]), chunks[n]);
      MeaningCut(chunks[..n], [chunks[n]]);
      OneMeaning(chunks[n]);
      assert chunks[..n] + [chunks[n]] == chunks;
    }
  }

  lemma NothingMeant()
    ensures Meaning([]) == []
  {
  }

  /** The chunk behind part `k`. */
  lemma {:induction false} StartOf(chunks: seq<Chunk>, k: nat) returns (i: nat)
    requires k < |Meaning(chunks)|
    ensures i < |chunks| && Adds(chunks[i]) && |Meaning(chunks[..i])| == k
    ensures Meaning(chunks)[k] == Said(chunks[i], chunks[i + 1..])
  {
    hide Said;
    if Adds(chunks[0]) && k == 0 {
      i := 0;
      assert chunks[..0] == [];
    } else {
      var one := if Adds(chunks[0]) then 1 else 0;
      i := StartOf(chunks[1..], k - one);
      assert chunks[1..][i + 1..] == chunks[i + 2..];
      MeaningCut([chunks[0]], chunks[1..][..i]);
      OneMeaning(chunks[0]);
      assert [chunks[0]] + chunks[1..][..i] == chunks[..i + 1];
      assert [chunks[0]] + chunks[1..] == chunks;
      i := i + 1;
    }
  }

  ghost function ClosedParts(s: AccState): (parts: seq<Part>)
    requires Accumulator.Valid(s)
    ensures IsClosed(s, parts)
  {
    var parts := seq(|s.parts|, k requires 0 <= k < |s.parts| =>
      if exists id :: id in s.activeInput && s.activeInput[id].index == k
      then (var id :| id in s.activeInput && s.activeInput[id].index == k; Finalised(s, id)) else s.parts[k]);
    assert forall id :: id in s.activeInput ==> parts[s.activeInput[id].index] == Finalised(s, id);
    parts
  }

  lemma ClosedMeans(chunks: seq<Chunk>, parts: seq<Part>)
    requires StreamParts(chunks, parts)
    ensures parts == Meaning(chunks)
  {
    hide BlockAt, AfterChunk, Accumulate, Meaning, Said;
    var s := Accumulate(INITIAL, chunks);
    PartsCounted(chunks);
    forall k | 0 <= k < |parts|
      ensures parts[k] == Meaning(chunks)[k]
    {
      var i := StartOf(chunks, k);
      PartsCounted(chunks[..i]);
      BlockHeld(chunks[..i], chunks[i], chunks[i + 1..]);
      assert chunks[..i] + [chunks[i]] + chunks[i + 1..] == chunks;
      BlockClosed(s, k, chunks[i], chunks[i + 1..], parts);
    }
  }

  /** The message of a whole stream is what its chunks say, block by block in the
      order of their starts, whatever else comes in between. */
  lemma StreamMeans(chunks: seq<Chunk>, parts: seq<Part>)
    ensures StreamParts(chunks, parts) <==> parts == Meaning(chunks)
  {
    hide Accumulate, Meaning, PartlyClosed, Accumulator.Valid;
    if StreamParts(chunks, parts) {
      ClosedMeans(chunks, parts);
    }
    InitialIsValid();
    AccumulateValid(INITIAL, chunks);
    var closed := ClosedParts(Accumulate(INITIAL, chunks));
    ClosedMeans(chunks, closed);
  }
}
