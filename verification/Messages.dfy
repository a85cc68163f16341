/** Chat messages as the agent runtime stores them: a role and a list of parts.
    IDs are strings and the empty string stands for "no ID", as in the source. */
module Messages {

  datatype Option<+T> = None | Some(value: T)

  datatype Role = System | User | Assistant | Tool | OtherRole

  /** The output of a tool; `NoOutput` is the source's nil interface value. */
  datatype Output =
    | NoOutput
    | JsonOutput(value: string)
    | TextOutput(value: string)
    | ErrorTextOutput(value: string)
    | ErrorJsonOutput(value: string)
    | DeniedOutput(reason: string)
    | ContentOutput(value: string)

  datatype Part =
    | TextPart(id: string, text: string, meta: string)
    | ReasoningPart(id: string, text: string, meta: string)
    | ToolCallPart(callId: string, toolName: string, input: string, providerExecuted: Option<bool>)
    | ToolResultPart(callId: string, toolName: string, output: Output)
    | ApprovalRequestPart(approvalId: string, callId: string)
    | ApprovalResponsePart(callId: string, approvalId: string, approved: bool, reason: string)
    | FilePart(data: string, mediaType: string, filename: string, meta: string)
    | ImagePart(image: string, mediaType: string)
    | SourceUrlPart(sourceId: string, url: string, title: string, meta: string)
    | SourceDocumentPart(sourceId: string, mediaType: string, title: string, filename: string, meta: string)
    | DataPart(dataType: string, id: string, data: string)
    | StepStartPart

  datatype Message = Message(
    id: string,
    role: Role,
    parts: seq<Part>,
    metadata: string,
    synthetic: bool,
    replacesId: string,
    replacedById: string)

  /** A message carrying only a role and parts, as most internal messages do. */
  function Plain(role: Role, parts: seq<Part>): Message {
    Message("", role, parts, "", false, "", "")
  }

  function WithMetadata(m: Message, metadata: string): (r: Message)
    ensures r.parts == m.parts && r.role == m.role && r.id == m.id
  {
    m.(metadata := metadata)
  }

  /** A tool call the runtime has to execute itself. */
  predicate IsExecutorCall(p: Part) {
    p.ToolCallPart? && p.providerExecuted != Some(true)
  }

  /** The calls of a message that the runtime has to execute, in order. */
  function ExecutorCalls(parts: seq<Part>): (calls: seq<Part>)
    ensures forall c :: c in calls <==> c in parts && IsExecutorCall(c)
    ensures forall i :: 0 <= i < |calls| ==> calls[i] in parts && calls[i].ToolCallPart?
  {
    if parts == [] then []
    else
      var last := parts[|parts| - 1];
      var rest := ExecutorCalls(parts[..|parts| - 1]);
      assert parts == parts[..|parts| - 1] + [last];
      if IsExecutorCall(last) then rest + [last] else rest
  }

  method ExtractToolCalls(msg: Message) returns (calls: seq<Part>)
    ensures calls == ExecutorCalls(msg.parts)
  {
    calls := [];
    for i := 0 to |msg.parts|
      invariant calls == ExecutorCalls(msg.parts[..i])
    {
      assert msg.parts[..i + 1][..i] == msg.parts[..i];
      var part := msg.parts[i];
      if part.ToolCallPart? {
        if part.providerExecuted.Some? && part.providerExecuted.value {
          continue;
        }
        calls := calls + [part];
      }
    }
    assert msg.parts[..|msg.parts|] == msg.parts;
  }

  function CallIds(m: Message): set<string> {
    set p | p in m.parts && IsExecutorCall(p) :: p.callId
  }

  function PartResultIds(parts: seq<Part>): set<string> {
    set p | p in parts && p.ToolResultPart? :: p.callId
  }

  function ResultIds(m: Message): set<string> {
    PartResultIds(m.parts)
  }

  /** No two executor calls of the message share an ID. */
  predicate DistinctCalls(m: Message) {
    var calls := ExecutorCalls(m.parts);
    forall i, j :: 0 <= i < j < |calls| ==> calls[i].callId != calls[j].callId
  }

  /** Text and reasoning only: what is kept of an interrupted stream. */
  function ContentParts(parts: seq<Part>): (kept: seq<Part>)
    ensures forall p :: p in kept ==> p.TextPart? || p.ReasoningPart?
  {
    if parts == [] then []
    else
      var rest := ContentParts(parts[..|parts| - 1]);
      var last := parts[|parts| - 1];
      if last.TextPart? || last.ReasoningPart? then rest + [last] else rest
  }

  method FilterContentParts(parts: seq<Part>) returns (filtered: seq<Part>)
    ensures filtered == ContentParts(parts)
  {
    filtered := [];
    for i := 0 to |parts|
      invariant filtered == ContentParts(parts[..i])
    {
      assert parts[..i + 1][..i] == parts[..i];
      if parts[i].TextPart? || parts[i].ReasoningPart? {
        filtered := filtered + [parts[i]];
      }
    }
    assert parts[..|parts|] == parts;
  }
}

/** When a history is fit to send to a provider: every assistant message with
    executor calls is followed, before the next message of another role, by
    tool messages that answer all of them, the last of which completes the set. */
module ToolClosure {
  import opened Messages

  /** One message read while `pending` calls are still unanswered. */
  function Read(pending: set<string>, m: Message): Option<set<string>> {
    match m.role
    case Assistant => if pending == {} then Some(CallIds(m)) else None
    case Tool => if pending != {} then Some(pending - ResultIds(m)) else None
    case _ => if pending == {} then Some({}) else None
  }

  /** The calls left unanswered after `ms`, or None when the order is broken. */
  function Scan(pending: set<string>, ms: seq<Message>): Option<set<string>> {
    if ms == [] then Some(pending)
    else
      match Scan(pending, ms[..|ms| - 1])
      case None => None
      case Some(p) => Read(p, ms[|ms| - 1])
  }

  predicate ToolClosed(ms: seq<Message>) {
    Scan({}, ms) == Some({})
  }

  lemma ScanSnoc(pending: set<string>, ms: seq<Message>, m: Message)
    ensures Scan(pending, ms + [m]) ==
            match Scan(pending, ms) { case None => None case Some(p) => Read(p, m) }
  {
    assert (ms + [m])[..|ms|] == ms;
  }

  /** Reading `a ++ b` is reading `a` and then `b`. */
  lemma {:induction false} ScanConcat(pending: set<string>, a: seq<Message>, b: seq<Message>)
    ensures Scan(pending, a + b) ==
            match Scan(pending, a) { case None => None case Some(p) => Scan(p, b) }
  {
    if b == [] {
      assert a + b == a;
    } else {
      var front := b[..|b| - 1];
      assert (a + b)[..|a + b| - 1] == a + front;
      ScanConcat(pending, a, front);
    }
  }

  /** Cutting a tool-closed history after a tool-closed prefix leaves a
      tool-closed suffix. */
  lemma ClosedCut(ms: seq<Message>, i: nat)
    requires ToolClosed(ms) && i <= |ms| && ToolClosed(ms[..i])
    ensures ToolClosed(ms[i..])
  {
    assert ms == ms[..i] + ms[i..];
    ScanConcat({}, ms[..i], ms[i..]);
  }

  /** A broken prefix cannot be repaired. */
  lemma ClosedPrefixReads(ms: seq<Message>, i: nat)
    requires ToolClosed(ms) && i <= |ms|
    ensures Scan({}, ms[..i]).Some?
  {
    assert ms == ms[..i] + ms[i..];
    ScanConcat({}, ms[..i], ms[i..]);
  }
}
