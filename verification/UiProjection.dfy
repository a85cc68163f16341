/** Stored messages as the user interface shows them: runs of assistant and
    tool messages become one message whose tool calls carry their state. */
module UiProjection {
  import opened Messages

  datatype ToolState = InputAvailable | ApprovalRequested | OutputAvailable | OutputError | OutputDenied

  datatype Approval = Approval(id: string, approved: Option<bool>, reason: string)

  /** A tool call with everything that became of it. */
  datatype Card = Card(
    toolName: string, callId: string, state: ToolState, executed: Option<bool>, input: string,
    output: Option<Output>, errorText: string, approval: Option<Approval>)

  datatype UiPart =
    | UiText(text: string, meta: string)
    | UiReasoning(text: string, meta: string)
    | UiFile(url: string, mediaType: string, filename: string, meta: string)
    | UiTool(card: Card)
    | UiSourceUrl(sourceId: string, url: string, title: string, meta: string)
    | UiSourceDocument(sourceId: string, mediaType: string, title: string, filename: string, meta: string)
    | UiData(dataType: string, id: string, data: string)
    | UiStepStart

  datatype UiMessage = UiMessage(
    id: string, role: Role, parts: seq<UiPart>, metadata: string,
    replacesId: string, replacedById: string, synthetic: bool)

  // ----- One tool call

  function Approved(a: Option<Approval>): Option<Approval> {
    if a.Some? && a.value.approved.None? then Some(Approval(a.value.id, Some(true), a.value.reason)) else a
  }

  function Refused(callId: string, a: Option<Approval>): Option<Approval> {
    var given := if a.None? then Approval(callId, None, "") else a.value;
    Some(if given.approved.None? then Approval(given.id, Some(false), given.reason) else given)
  }

  /** applyToolResultToDynamicPart */
  function Apply(c: Card, output: Output): (r: Card)
    ensures r.callId == c.callId && r.toolName == c.toolName
  {
    match output
    case NoOutput => c
    case ErrorTextOutput(text) => c.(state := OutputError, errorText := text)
    case ErrorJsonOutput(text) => c.(state := OutputError, errorText := text)
    case DeniedOutput(_) => c.(state := OutputDenied, approval := Refused(c.callId, c.approval))
    case _ => c.(state := OutputAvailable, output := Some(output), approval := Approved(c.approval))
  }

  /** What the tool messages of a step, and its approval requests, say. */
  datatype Replies = Replies(
    results: map<string, Output>, responses: map<string, Part>, responsesByCall: map<string, Part>,
    requests: map<string, string>)

  const NO_REPLIES := Replies(map[], map[], map[], map[])

  function AddReply(r: Replies, p: Part): Replies {
    match p
    case ToolResultPart(callId, _, output) => r.(results := r.results[callId := output])
    case ApprovalResponsePart(callId, approvalId, _, _) =>
      r.(responses := r.responses[approvalId := p],
         responsesByCall := if callId != "" then r.responsesByCall[callId := p] else r.responsesByCall)
    case ApprovalRequestPart(approvalId, callId) => r.(requests := r.requests[callId := approvalId])
    case _ => r
  }

  function AddReplies(r: Replies, parts: seq<Part>): Replies {
    if parts == [] then r else AddReply(AddReplies(r, parts[..|parts| - 1]), parts[|parts| - 1])
  }

  /** The approval requests that the assistant message itself holds. */
  function OwnRequests(parts: seq<Part>): map<string, string> {
    if parts == [] then map[]
    else
      var before, last := OwnRequests(parts[..|parts| - 1]), parts[|parts| - 1];
      if last.ApprovalRequestPart? then before[last.callId := last.approvalId] else before
  }

  function AllParts(ms: seq<Message>): seq<Part> {
    if ms == [] then [] else AllParts(ms[..|ms| - 1]) + ms[|ms| - 1].parts
  }

  function RepliesTo(parts: seq<Part>, toolMsgs: seq<Message>): Replies {
    AddReplies(NO_REPLIES.(requests := OwnRequests(parts)), AllParts(toolMsgs))
  }

  function ResponseOf(r: map<string, Part>, key: string): Option<Part> {
    if key in r && r[key].ApprovalResponsePart? then Some(r[key]) else None
  }

  /** The card of a call, and its approval if the messages speak of one. */
  function AskedCard(r: Replies, callId: string, toolName: string, input: string, executed: Option<bool>): Card {
    var card := Card(toolName, callId, InputAvailable, executed, input, None, "", None);
    if callId in r.requests then
      match ResponseOf(r.responses, r.requests[callId]) {
        case Some(resp) => card.(approval := Some(Approval(r.requests[callId], Some(resp.approved), resp.reason)))
        case None => card.(approval := Some(Approval(r.requests[callId], None, "")), state := ApprovalRequested)
      }
    else
      match ResponseOf(r.responsesByCall, callId) {
        case Some(resp) => card.(approval := Some(Approval(resp.approvalId, Some(resp.approved), resp.reason)))
        case None => card
      }
  }

  /** The card of a call before any result inside its own message. */
  function NewCard(r: Replies, callId: string, toolName: string, input: string, executed: Option<bool>): (c: Card)
    ensures c.callId == callId && c.toolName == toolName
  {
    var asked := AskedCard(r, callId, toolName, input, executed);
    if callId in r.results then Apply(asked, r.results[callId]) else asked
  }

  // ----- One step

  /** The parts so far, and where the latest card of each call is. */
  datatype Cards = Cards(parts: seq<UiPart>, latest: map<string, nat>)

  ghost predicate LatestAreCards(s: Cards) {
    forall c :: c in s.latest ==>
      s.latest[c] < |s.parts| && s.parts[s.latest[c]].UiTool? && s.parts[s.latest[c]].card.callId == c
  }

  function WithResult(parts: seq<UiPart>, i: nat, output: Output): (r: seq<UiPart>)
    ensures |r| == |parts|
  {
    if i < |parts| && parts[i].UiTool? then parts[i := UiTool(Apply(parts[i].card, output))] else parts
  }

  function AddPart(r: Replies, s: Cards, p: Part): Cards {
    match p
    case TextPart(_, text, meta) => Cards(s.parts + [UiText(text, meta)], s.latest)
    case ReasoningPart(_, text, meta) => Cards(s.parts + [UiReasoning(text, meta)], s.latest)
    case FilePart(data, mediaType, filename, meta) => Cards(s.parts + [UiFile(data, mediaType, filename, meta)], s.latest)
    case ToolCallPart(callId, toolName, input, executed) =>
      Cards(s.parts + [UiTool(NewCard(r, callId, toolName, input, executed))], s.latest[callId := |s.parts|])
    case ToolResultPart(callId, _, output) =>
      if callId in s.latest then Cards(WithResult(s.parts, s.latest[callId], output), s.latest) else s
    case SourceUrlPart(sourceId, url, title, meta) => Cards(s.parts + [UiSourceUrl(sourceId, url, title, meta)], s.latest)
    case SourceDocumentPart(sourceId, mediaType, title, filename, meta) =>
      Cards(s.parts + [UiSourceDocument(sourceId, mediaType, title, filename, meta)], s.latest)
    case DataPart(dataType, id, data) => Cards(s.parts + [UiData("data-" + dataType, id, data)], s.latest)
    case _ => s
  }

  function Convert(r: Replies, parts: seq<Part>): Cards {
    if parts == [] then Cards([], map[]) else AddPart(r, Convert(r, parts[..|parts| - 1]), parts[|parts| - 1])
  }

  function StepParts(ass: Message, toolMsgs: seq<Message>): seq<UiPart> {
    Convert(RepliesTo(ass.parts, toolMsgs), ass.parts).parts
  }

  /** convertAssistantToolStepToUI */
  method ConvertAssistantToolStepToUI(ass: Message, toolMsgs: seq<Message>) returns (parts: seq<UiPart>)
    ensures parts == StepParts(ass, toolMsgs)
  {
    var requests: map<string, string> := map[];
    for i := 0 to |ass.parts|
      invariant requests == OwnRequests(ass.parts[..i])
    {
      assert ass.parts[..i + 1][..i] == ass.parts[..i];
      if ass.parts[i].ApprovalRequestPart? {
        requests := requests[ass.parts[i].callId := ass.parts[i].approvalId];
      }
    }
    assert ass.parts[..|ass.parts|] == ass.parts;
    var replies := CollectReplies(requests, toolMsgs);
    var cards := Cards([], map[]);
    for i := 0 to |ass.parts|
      invariant cards == Convert(replies, ass.parts[..i])
    {
      assert ass.parts[..i + 1][..i] == ass.parts[..i];
      cards := AddPart(replies, cards, ass.parts[i]);
    }
    parts := cards.parts;
  }

  lemma AddRepliesSnoc(r: Replies, parts: seq<Part>, p: Part)
    ensures AddReplies(r, parts + [p]) == AddReply(AddReplies(r, parts), p)
  {
    assert (parts + [p])[..|parts|] == parts;
  }

  method CollectReplies(requests: map<string, string>, toolMsgs: seq<Message>) returns (replies: Replies)
    ensures replies == AddReplies(NO_REPLIES.(requests := requests), AllParts(toolMsgs))
  {
    hide AddReply;
    ghost var start := NO_REPLIES.(requests := requests);
    replies := Replies(map[], map[], map[], requests);
    for i := 0 to |toolMsgs|
      invariant replies == AddReplies(start, AllParts(toolMsgs[..i]))
    {
      assert toolMsgs[..i + 1][..i] == toolMsgs[..i];
      var parts := toolMsgs[i].parts;
      ghost var before := AllParts(toolMsgs[..i]);
      assert before + parts[..0] == before;
      for j := 0 to |parts|
        invariant replies == AddReplies(start, before + parts[..j])
      {
        AddRepliesSnoc(start, before + parts[..j], parts[j]);
        assert before + parts[..j + 1] == before + parts[..j] + [parts[j]];
        replies := AddReply(replies, parts[j]);
      }
      assert parts[..|parts|] == parts;
    }
    assert toolMsgs[..|toolMsgs|] == toolMsgs;
  }

  // ----- What the messages say about a call

  /** The last result for the call, the last request for its approval, and the
      last response to a request or for the call. */
  function LastResultFor(parts: seq<Part>, callId: string): Option<Output> {
    if parts == [] then None
    else
      var last := parts[|parts| - 1];
      if last.ToolResultPart? && last.callId == callId then Some(last.output) else LastResultFor(parts[..|parts| - 1], callId)
  }

  function LastRequestFor(parts: seq<Part>, callId: string): Option<string> {
    if parts == [] then None
    else
      var last := parts[|parts| - 1];
      if last.ApprovalRequestPart? && last.callId == callId then Some(last.approvalId)
      else LastRequestFor(parts[..|parts| - 1], callId)
  }

  function LastResponseTo(parts: seq<Part>, approvalId: string): (p: Option<Part>)
    ensures p.Some? ==> p.value.ApprovalResponsePart?
  {
    if parts == [] then None
    else
      var last := parts[|parts| - 1];
      if last.ApprovalResponsePart? && last.approvalId == approvalId then Some(last)
      else LastResponseTo(parts[..|parts| - 1], approvalId)
  }

  function LastResponseFor(parts: seq<Part>, callId: string): (p: Option<Part>)
    ensures p.Some? ==> p.value.ApprovalResponsePart?
  {
    if parts == [] then None
    else
      var last := parts[|parts| - 1];
      if last.ApprovalResponsePart? && last.callId == callId && callId != "" then Some(last)
      else LastResponseFor(parts[..|parts| - 1], callId)
  }

  /** The outputs for the call in the parts behind it, up to the next call that has
      the same ID. */
  function InsideOutcomes(rest: seq<Part>, callId: string): seq<Output> {
    if rest == [] || (rest[0].ToolCallPart? && rest[0].callId == callId) then []
    else
      var here := if rest[0].ToolResultPart? && rest[0].callId == callId && rest[0].output != NoOutput then [rest[0].output] else [];
      here + InsideOutcomes(rest[1..], callId)
  }

  /** The output of the last result in the tool messages, if it has one. */
  function ToolOutcomes(toolParts: seq<Part>, callId: string): seq<Output> {
    match LastResultFor(toolParts, callId)
    case Some(output) => if output == NoOutput then [] else [output]
    case None => []
  }

  /** Everything that became of the `j`-th part, a call; the last one decides. */
  function Outcomes(ass: Message, toolMsgs: seq<Message>, j: nat): seq<Output>
    requires j < |ass.parts| && ass.parts[j].ToolCallPart?
  {
    ToolOutcomes(AllParts(toolMsgs), ass.parts[j].callId) + InsideOutcomes(ass.parts[j + 1..], ass.parts[j].callId)
  }

  predicate IsError(o: Output) {
    o.ErrorTextOutput? || o.ErrorJsonOutput?
  }

  predicate IsValue(o: Output) {
    o != NoOutput && !IsError(o) && !o.DeniedOutput?
  }

  function ErrorText(o: Output): string
    requires IsError(o)
  {
    o.value
  }

  /** The last value and the last error text among the outcomes. */
  function LastValue(os: seq<Output>): Option<Output> {
    if os == [] then None
    else if IsValue(os[|os| - 1]) then Some(os[|os| - 1])
    else LastValue(os[..|os| - 1])
  }

  function LastError(os: seq<Output>): string {
    if os == [] then ""
    else if IsError(os[|os| - 1]) then ErrorText(os[|os| - 1])
    else LastError(os[..|os| - 1])
  }

  /** What the first outcome that is no error says about the approval. */
  function FirstDecision(os: seq<Output>): Option<bool> {
    if os == [] then None
    else
      var before := FirstDecision(os[..|os| - 1]);
      if before.Some? || IsError(os[|os| - 1]) || os[|os| - 1] == NoOutput then before else Some(IsValue(os[|os| - 1]))
  }

  predicate Denied(os: seq<Output>) {
    exists o :: o in os && o.DeniedOutput?
  }

  /** The approval that the messages themselves speak of: the request and the
      response to it, or a response for the call without a request. */
  function AskedApproval(ass: Message, toolMsgs: seq<Message>, callId: string): Option<Approval> {
    var toolParts := AllParts(toolMsgs);
    match LastRequestFor(ass.parts + toolParts, callId)
    case Some(id) =>
      (match LastResponseTo(toolParts, id)
       case Some(resp) => Some(Approval(id, Some(resp.approved), resp.reason))
       case None => Some(Approval(id, None, "")))
    case None =>
      (match LastResponseFor(toolParts, callId)
       case Some(resp) => Some(Approval(resp.approvalId, Some(resp.approved), resp.reason))
       case None => None)
  }

  predicate WaitsForApproval(ass: Message, toolMsgs: seq<Message>, callId: string) {
    var request := LastRequestFor(ass.parts + AllParts(toolMsgs), callId);
    request.Some? && LastResponseTo(AllParts(toolMsgs), request.value).None?
  }

  /** An approval without a response is settled by the first outcome that is no
      error; a denial without any approval makes one. */
  function SettledApproval(callId: string, asked: Option<Approval>, os: seq<Output>): Option<Approval> {
    match asked
    case None => if Denied(os) then Some(Approval(callId, Some(false), "")) else None
    case Some(a) => if a.approved.None? then Some(a.(approved := FirstDecision(os))) else asked
  }

  function StateOf(waits: bool, os: seq<Output>): ToolState {
    if os == [] then (if waits then ApprovalRequested else InputAvailable)
    else
      var last := os[|os| - 1];
      if IsError(last) then OutputError else if last.DeniedOutput? then OutputDenied else OutputAvailable
  }

  function CardWith(call: Part, asked: Option<Approval>, waits: bool, os: seq<Output>): Card
    requires call.ToolCallPart?
  {
    Card(call.toolName, call.callId, StateOf(waits, os), call.providerExecuted, call.input,
      LastValue(os), LastError(os), SettledApproval(call.callId, asked, os))
  }

  /** What the messages of the step say about the `j`-th part, a call. */
  function CallCard(ass: Message, toolMsgs: seq<Message>, j: nat): Card
    requires j < |ass.parts| && ass.parts[j].ToolCallPart?
  {
    var c := ass.parts[j].callId;
    CardWith(ass.parts[j], AskedApproval(ass, toolMsgs, c), WaitsForApproval(ass, toolMsgs, c), Outcomes(ass, toolMsgs, j))
  }

  lemma OutcomesMore(os: seq<Output>, output: Output)
    ensures var more := os + [output];
      && LastValue(more) == (if IsValue(output) then Some(output) else LastValue(os))
      && LastError(more) == (if IsError(output) then ErrorText(output) else LastError(os))
      && FirstDecision(more) == (if FirstDecision(os).Some? || IsError(output) || output == NoOutput then FirstDecision(os)
                                 else Some(IsValue(output)))
      && (Denied(more) <==> Denied(os) || output.DeniedOutput?)
  {
    var more := os + [output];
    assert more[..|os|] == os && more[|os|] == output;
    assert forall o :: o in more <==> o in os || o == output;
  }

  /** One outcome more. */
  lemma ApplyTells(call: Part, asked: Option<Approval>, waits: bool, os: seq<Output>, output: Output)
    requires call.ToolCallPart?
    ensures Apply(CardWith(call, asked, waits, os), output) ==
      CardWith(call, asked, waits, if output == NoOutput then os else os + [output])
  {
    hide LastValue, LastError, FirstDecision, Denied;
    OutcomesMore(os, output);
  }

  lemma OneReplySays(r: Replies, p: Part, key: string)
    ensures var s := AddReply(r, p);
      && Found(s.results, key) == (if p.ToolResultPart? && p.callId == key then Some(p.output) else Found(r.results, key))
      && Found(s.requests, key) ==
           (if p.ApprovalRequestPart? && p.callId == key then Some(p.approvalId) else Found(r.requests, key))
      && Found(s.responses, key) ==
           (if p.ApprovalResponsePart? && p.approvalId == key then Some(p) else Found(r.responses, key))
      && Found(s.responsesByCall, key) ==
           (if p.ApprovalResponsePart? && p.callId == key && key != "" then Some(p) else Found(r.responsesByCall, key))
  {
  }

  lemma {:induction false} RepliesSay(r: Replies, parts: seq<Part>, key: string)
    ensures var s := AddReplies(r, parts);
      && Found(s.results, key) == Either(LastResultFor(parts, key), Found(r.results, key))
      && Found(s.requests, key) == Either(LastRequestFor(parts, key), Found(r.requests, key))
      && Found(s.responses, key) == Either(LastResponseTo(parts, key), Found(r.responses, key))
      && Found(s.responsesByCall, key) == Either(LastResponseFor(parts, key), Found(r.responsesByCall, key))
  {
    hide AddReply, Found;
    if parts != [] {
      var n := |parts| - 1;
      RepliesSay(r, parts[..n], key);
      OneReplySays(AddReplies(r, parts[..n]), parts[n], key);
    }
  }

  function Found<V>(m: map<string, V>, key: string): Option<V> {
    if key in m then Some(m[key]) else None
  }

  function Either<V>(a: Option<V>, b: Option<V>): Option<V> {
    if a.Some? then a else b
  }

  lemma {:induction false} OwnRequestsSay(parts: seq<Part>, key: string)
    ensures Found(OwnRequests(parts), key) == LastRequestFor(parts, key)
  {
    if parts != [] {
      OwnRequestsSay(parts[..|parts| - 1], key);
    }
  }

  lemma {:induction false} LastRequestBehind(a: seq<Part>, b: seq<Part>, key: string)
    ensures LastRequestFor(a + b, key) == Either(LastRequestFor(b, key), LastRequestFor(a, key))
  {
    if b == [] {
      assert a + b == a;
    } else {
      assert (a + b)[..|a + b| - 1] == a + b[..|b| - 1];
      LastRequestBehind(a, b[..|b| - 1], key);
    }
  }

  /** The replies of a step are what its messages say. */
  lemma RepliesToSay(ass: Message, toolMsgs: seq<Message>, key: string)
    ensures var r, toolParts := RepliesTo(ass.parts, toolMsgs), AllParts(toolMsgs);
      && Found(r.results, key) == LastResultFor(toolParts, key)
      && Found(r.requests, key) == LastRequestFor(ass.parts + toolParts, key)
      && Found(r.responses, key) == LastResponseTo(toolParts, key)
      && Found(r.responsesByCall, key) == LastResponseFor(toolParts, key)
  {
    hide AddReplies, AllParts;
    RepliesSay(NO_REPLIES.(requests := OwnRequests(ass.parts)), AllParts(toolMsgs), key);
    OwnRequestsSay(ass.parts, key);
    LastRequestBehind(ass.parts, AllParts(toolMsgs), key);
  }

  lemma AskedCardTells(ass: Message, toolMsgs: seq<Message>, call: Part)
    requires call.ToolCallPart?
    ensures AskedCard(RepliesTo(ass.parts, toolMsgs), call.callId, call.toolName, call.input, call.providerExecuted) ==
      CardWith(call, AskedApproval(ass, toolMsgs, call.callId), WaitsForApproval(ass, toolMsgs, call.callId), [])
  {
    hide RepliesTo, AllParts, LastResultFor, LastRequestFor, LastResponseTo, LastResponseFor;
    var r, c := RepliesTo(ass.parts, toolMsgs), call.callId;
    RepliesToSay(ass, toolMsgs, c);
    if c in r.requests {
      RepliesToSay(ass, toolMsgs, r.requests[c]);
    }
  }

  /** The card of a call before any result inside its own message. */
  lemma NewCardTells(ass: Message, toolMsgs: seq<Message>, call: Part)
    requires call.ToolCallPart?
    ensures NewCard(RepliesTo(ass.parts, toolMsgs), call.callId, call.toolName, call.input, call.providerExecuted) ==
      CardWith(call, AskedApproval(ass, toolMsgs, call.callId), WaitsForApproval(ass, toolMsgs, call.callId),
        ToolOutcomes(AllParts(toolMsgs), call.callId))
  {
    hide RepliesTo, Apply, AllParts, LastResultFor, AskedCard, CardWith, AskedApproval, WaitsForApproval;
    var r, c := RepliesTo(ass.parts, toolMsgs), call.callId;
    RepliesToSay(ass, toolMsgs, c);
    AskedCardTells(ass, toolMsgs, call);
    if c in r.results {
      ApplyTells(call, AskedApproval(ass, toolMsgs, c), WaitsForApproval(ass, toolMsgs, c), [], r.results[c]);
      assert [] + [r.results[c]] == [r.results[c]];
    }
  }

  // ----- What a step shows

  /** No call between `j` and `m` has the ID of call `j`. */
  predicate IsLatest(parts: seq<Part>, j: nat, m: nat)
    requires j < m <= |parts| && parts[j].ToolCallPart?
  {
    forall l :: j < l < m ==> !(parts[l].ToolCallPart? && parts[l].callId == parts[j].callId)
  }

  /** The position of the card of the `j`-th part. */
  function CardAt(r: Replies, parts: seq<Part>, j: nat): nat
    requires j < |parts|
  {
    |Convert(r, parts[..j]).parts|
  }

  lemma {:induction false} PartsGrow(r: Replies, parts: seq<Part>, j: nat)
    requires j <= |parts|
    ensures |Convert(r, parts[..j]).parts| <= |Convert(r, parts).parts|
  {
    hide NewCard, Apply;
    if j == |parts| {
      assert parts[..j] == parts;
    } else {
      assert parts[..|parts| - 1][..j] == parts[..j];
      PartsGrow(r, parts[..|parts| - 1], j);
    }
  }

  lemma ResultKeepsCards(s: Cards, i: nat, output: Output)
    requires LatestAreCards(s)
    ensures LatestAreCards(Cards(WithResult(s.parts, i, output), s.latest))
  {
    hide Apply;
  }

  lemma PartKeepsCards(r: Replies, s: Cards, p: Part)
    requires LatestAreCards(s)
    ensures LatestAreCards(AddPart(r, s, p))
  {
    hide NewCard, WithResult;
    if p.ToolResultPart? && p.callId in s.latest {
      ResultKeepsCards(s, s.latest[p.callId], p.output);
    }
  }

  lemma {:induction false} LatestGood(r: Replies, parts: seq<Part>)
    ensures LatestAreCards(Convert(r, parts))
  {
    hide AddPart;
    if parts != [] {
      LatestGood(r, parts[..|parts| - 1]);
      PartKeepsCards(r, Convert(r, parts[..|parts| - 1]), parts[|parts| - 1]);
    }
  }

  /** What one more part does to the card at `i`. */
  lemma CardAfterPart(r: Replies, s: Cards, p: Part, i: nat)
    requires LatestAreCards(s) && i < |s.parts| && s.parts[i].UiTool?
    ensures var c := s.parts[i].card; var after := AddPart(r, s, p).parts;
      && i < |after| && after[i].UiTool?
      && var hit := p.ToolResultPart? && p.callId in s.latest && s.latest[p.callId] == i;
      && after[i].card == if hit then Apply(c, p.output) else c
    ensures !p.ToolCallPart? ==> AddPart(r, s, p).latest == s.latest
    ensures p.ToolCallPart? ==> AddPart(r, s, p).latest == s.latest[p.callId := |s.parts|]
  {
    hide NewCard, Apply;
  }

  lemma ConvertLast(r: Replies, parts: seq<Part>)
    requires parts != []
    ensures var n := |parts| - 1; Convert(r, parts) == AddPart(r, Convert(r, parts[..n]), parts[n])
  {
  }

  lemma CardIndex(r: Replies, parts: seq<Part>, j: nat)
    requires j < |parts| - 1
    ensures var front := parts[..|parts| - 1];
      parts[..j] == front[..j] && CardAt(r, parts, j) == CardAt(r, front, j) <= |Convert(r, front).parts|
  {
    hide Convert;
    assert parts[..j] == parts[..|parts| - 1][..j];
    PartsGrow(r, parts[..|parts| - 1], j);
  }

  lemma LatestAfter(r: Replies, s: Cards, p: Part, callId: string, i: nat)
    requires i < |s.parts|
    ensures var after := AddPart(r, s, p).latest;
      (callId in after && after[callId] == i) <==>
      (callId in s.latest && s.latest[callId] == i) && !(p.ToolCallPart? && p.callId == callId)
  {
  }

  lemma IsLatestMore(parts: seq<Part>, j: nat)
    requires j < |parts| - 1 && parts[j].ToolCallPart?
    ensures var n := |parts| - 1;
      IsLatest(parts, j, |parts|) <==>
      IsLatest(parts[..n], j, n) && !(parts[n].ToolCallPart? && parts[n].callId == parts[j].callId)
  {
    var n := |parts| - 1;
    assert IsLatest(parts, j, n) == IsLatest(parts[..n], j, n);
  }

  /** The latest card with the call's ID is its own exactly as long as no later
      call reuses the ID. */
  lemma {:induction false} LatestCard(r: Replies, parts: seq<Part>, j: nat)
    requires j < |parts| && parts[j].ToolCallPart?
    ensures CardAt(r, parts, j) < |Convert(r, parts).parts|
    ensures var shown := Convert(r, parts).parts[CardAt(r, parts, j)];
      shown.UiTool? && shown.card.callId == parts[j].callId
    ensures IsLatest(parts, j, |parts|) <==>
      parts[j].callId in Convert(r, parts).latest && Convert(r, parts).latest[parts[j].callId] == CardAt(r, parts, j)
    decreases |parts|
  {
    var n := |parts| - 1;
    if j == n {
      hide NewCard;
      assert parts[..j] == parts[..n];
    } else {
      hide AddPart, Convert, CardAt, IsLatest;
      var front := parts[..n];
      ConvertLast(r, parts);
      LatestCard(r, front, j);
      LatestGood(r, front);
      CardIndex(r, parts, j);
      CardAfterPart(r, Convert(r, front), parts[n], CardAt(r, front, j));
      LatestAfter(r, Convert(r, front), parts[n], parts[j].callId, CardAt(r, front, j));
      IsLatestMore(parts, j);
    }
  }

  predicate Recalled(rest: seq<Part>, callId: string) {
    exists p :: p in rest && p.ToolCallPart? && p.callId == callId
  }

  lemma {:induction false} OneMoreOutcome(rest: seq<Part>, p: Part, callId: string)
    ensures InsideOutcomes(rest + [p], callId) == InsideOutcomes(rest, callId) +
      if !Recalled(rest, callId) && p.ToolResultPart? && p.callId == callId && p.output != NoOutput then [p.output] else []
  {
    if rest == [] {
      assert rest + [p] == [p] && [p][1..] == [];
    } else {
      assert (rest + [p])[0] == rest[0] && (rest + [p])[1..] == rest[1..] + [p];
      OneMoreOutcome(rest[1..], p, callId);
      assert Recalled(rest, callId) <==> (rest[0].ToolCallPart? && rest[0].callId == callId) || Recalled(rest[1..], callId);
    }
  }

  lemma LatestIsNotRecalled(parts: seq<Part>, j: nat)
    requires j < |parts| && parts[j].ToolCallPart?
    ensures IsLatest(parts, j, |parts|) <==> !Recalled(parts[j + 1..], parts[j].callId)
  {
    var rest, c := parts[j + 1..], parts[j].callId;
    if Recalled(rest, c) {
      var p :| p in rest && p.ToolCallPart? && p.callId == c;
      var k :| 0 <= k < |rest| && rest[k] == p;
      assert parts[j + 1 + k] == p;
    } else {
      forall l | j < l < |parts|
        ensures !(parts[l].ToolCallPart? && parts[l].callId == c)
      {
        assert parts[l] == rest[l - j - 1] && parts[l] in rest;
      }
    }
  }

  /** The card of the call when the parts of its message up to here are read. */
  function CardSoFar(ass: Message, toolMsgs: seq<Message>, parts: seq<Part>, j: nat): Card
    requires j < |parts| && parts[j].ToolCallPart?
  {
    var c := parts[j].callId;
    CardWith(parts[j], AskedApproval(ass, toolMsgs, c), WaitsForApproval(ass, toolMsgs, c),
      ToolOutcomes(AllParts(toolMsgs), c) + InsideOutcomes(parts[j + 1..], c))
  }

  lemma NewCardSoFar(ass: Message, toolMsgs: seq<Message>, parts: seq<Part>)
    requires parts != [] && parts[|parts| - 1].ToolCallPart?
    ensures var r, n := RepliesTo(ass.parts, toolMsgs), |parts| - 1;
      && CardAt(r, parts, n) < |Convert(r, parts).parts|
      && Convert(r, parts).parts[CardAt(r, parts, n)] == UiTool(CardSoFar(ass, toolMsgs, parts, n))
  {
    hide NewCard, RepliesTo, CardWith, AskedApproval, WaitsForApproval, ToolOutcomes, AllParts;
    var n := |parts| - 1;
    NewCardTells(ass, toolMsgs, parts[n]);
    assert parts[n + 1..] == [];
    assert ToolOutcomes(AllParts(toolMsgs), parts[n].callId) + [] == ToolOutcomes(AllParts(toolMsgs), parts[n].callId);
  }

  lemma CardGoesOn(ass: Message, toolMsgs: seq<Message>, parts: seq<Part>, j: nat, hit: bool)
    requires j < |parts| - 1 && parts[j].ToolCallPart?
    requires var p := parts[|parts| - 1];
      hit <==> p.ToolResultPart? && p.callId == parts[j].callId && IsLatest(parts, j, |parts| - 1)
    ensures var p := parts[|parts| - 1];
      CardSoFar(ass, toolMsgs, parts, j) ==
        var before := CardSoFar(ass, toolMsgs, parts[..|parts| - 1], j); if hit then Apply(before, p.output) else before
  {
    hide CardWith, AskedApproval, WaitsForApproval, ToolOutcomes, AllParts, Apply, IsLatest;
    var n, c := |parts| - 1, parts[j].callId;
    var front, p := parts[..n], parts[n];
    var os := ToolOutcomes(AllParts(toolMsgs), c);
    assert parts[j + 1..] == front[j + 1..] + [p];
    OneMoreOutcome(front[j + 1..], p, c);
    LatestIsNotRecalled(front, j);
    assert IsLatest(front, j, n) == IsLatest(parts, j, n) by { SameLatest(parts, j); }
    var inside := InsideOutcomes(front[j + 1..], c);
    if hit {
      ApplyTells(parts[j], AskedApproval(ass, toolMsgs, c), WaitsForApproval(ass, toolMsgs, c), os + inside, p.output);
      assert os + (inside + [p.output]) == os + inside + [p.output];
      assert inside + [] == inside;
    } else {
      assert inside + [] == inside;
    }
  }

  lemma SameLatest(parts: seq<Part>, j: nat)
    requires j < |parts| - 1 && parts[j].ToolCallPart?
    ensures var n := |parts| - 1; IsLatest(parts[..n], j, n) == IsLatest(parts, j, n)
  {
  }

  /** The card of a call shows what the messages of the step say about it. */
  lemma {:induction false} CardShown(ass: Message, toolMsgs: seq<Message>, parts: seq<Part>, j: nat)
    requires j < |parts| && parts[j].ToolCallPart?
    ensures var r := RepliesTo(ass.parts, toolMsgs);
      && CardAt(r, parts, j) < |Convert(r, parts).parts|
      && Convert(r, parts).parts[CardAt(r, parts, j)] == UiTool(CardSoFar(ass, toolMsgs, parts, j))
    decreases |parts|
  {
    hide AddPart, Convert, CardAt, IsLatest, CardSoFar, RepliesTo, Apply;
    var n, r := |parts| - 1, RepliesTo(ass.parts, toolMsgs);
    if j == n {
      NewCardSoFar(ass, toolMsgs, parts);
    } else {
      var front, p := parts[..n], parts[n];
      ConvertLast(r, parts);
      CardShown(ass, toolMsgs, front, j);
      LatestCard(r, front, j);
      LatestGood(r, front);
      CardIndex(r, parts, j);
      SameLatest(parts, j);
      var s, i := Convert(r, front), CardAt(r, front, j);
      CardAfterPart(r, s, p, i);
      var hit := p.ToolResultPart? && p.callId in s.latest && s.latest[p.callId] == i;
      assert hit ==> p.callId == parts[j].callId;
      CardGoesOn(ass, toolMsgs, parts, j, hit);
    }
  }

  /** What the `j`-th part of the message becomes, if anything. */
  function PartShown(ass: Message, toolMsgs: seq<Message>, j: nat): (shown: seq<UiPart>)
    requires j < |ass.parts|
    ensures |shown| <= 1
  {
    match ass.parts[j]
    case TextPart(_, text, meta) => [UiText(text, meta)]
    case ReasoningPart(_, text, meta) => [UiReasoning(text, meta)]
    case FilePart(data, mediaType, filename, meta) => [UiFile(data, mediaType, filename, meta)]
    case ToolCallPart(_, _, _, _) => [UiTool(CallCard(ass, toolMsgs, j))]
    case SourceUrlPart(sourceId, url, title, meta) => [UiSourceUrl(sourceId, url, title, meta)]
    case SourceDocumentPart(sourceId, mediaType, title, filename, meta) =>
      [UiSourceDocument(sourceId, mediaType, title, filename, meta)]
    case DataPart(dataType, id, data) => [UiData("data-" + dataType, id, data)]
    case _ => []
  }

  /** The first `n` parts of the message, in order, each with what the messages of
      the step say about it. */
  function StepShows(ass: Message, toolMsgs: seq<Message>, n: nat): seq<UiPart>
    requires n <= |ass.parts|
  {
    if n == 0 then [] else StepShows(ass, toolMsgs, n - 1) + PartShown(ass, toolMsgs, n - 1)
  }

  /** Later parts change nothing but cards. */
  lemma {:induction false} PlainKept(r: Replies, parts: seq<Part>, j: nat, i: nat)
    requires j <= |parts| && i < |Convert(r, parts[..j]).parts| && !Convert(r, parts[..j]).parts[i].UiTool?
    ensures i < |Convert(r, parts).parts| && Convert(r, parts).parts[i] == Convert(r, parts[..j]).parts[i]
    decreases |parts|
  {
    hide NewCard, Apply;
    if j == |parts| {
      assert parts[..j] == parts;
    } else {
      assert parts[..|parts| - 1][..j] == parts[..j];
      PlainKept(r, parts[..|parts| - 1], j, i);
    }
  }

  /** A part that is no call shows itself or nothing. */
  lemma PlainShown(ass: Message, toolMsgs: seq<Message>, n: nat)
    requires 0 < n <= |ass.parts| && !ass.parts[n - 1].ToolCallPart?
    ensures var r := RepliesTo(ass.parts, toolMsgs); var m := |Convert(r, ass.parts[..n - 1]).parts|;
      && m <= |Convert(r, ass.parts[..n]).parts| && Convert(r, ass.parts[..n]).parts[m..] == PartShown(ass, toolMsgs, n - 1)
      && (forall p :: p in PartShown(ass, toolMsgs, n - 1) ==> !p.UiTool?)
  {
    hide NewCard, Apply, RepliesTo;
    assert ass.parts[..n][..n - 1] == ass.parts[..n - 1] && ass.parts[..n][n - 1] == ass.parts[n - 1];
  }

  lemma CallShown(ass: Message, toolMsgs: seq<Message>, n: nat)
    requires 0 < n <= |ass.parts| && ass.parts[n - 1].ToolCallPart?
    ensures var r := RepliesTo(ass.parts, toolMsgs); var m := |Convert(r, ass.parts[..n - 1]).parts|;
      && |Convert(r, ass.parts[..n]).parts| == m + 1 <= |StepParts(ass, toolMsgs)|
      && StepParts(ass, toolMsgs)[m] == UiTool(CallCard(ass, toolMsgs, n - 1))
  {
    hide NewCard, Apply, RepliesTo, CardWith, AskedApproval, WaitsForApproval, ToolOutcomes, AllParts;
    assert ass.parts[..n][..n - 1] == ass.parts[..n - 1] && ass.parts[..n][n - 1] == ass.parts[n - 1];
    CardShown(ass, toolMsgs, ass.parts, n - 1);
  }

  /** Up to any part of the message, what its step shows is what it says. */
  lemma {:induction false} PrefixShown(ass: Message, toolMsgs: seq<Message>, n: nat)
    requires n <= |ass.parts|
    ensures var r := RepliesTo(ass.parts, toolMsgs); var m := |Convert(r, ass.parts[..n]).parts|;
      m <= |StepParts(ass, toolMsgs)| && StepParts(ass, toolMsgs)[..m] == StepShows(ass, toolMsgs, n)
    decreases n
  {
    hide Convert, RepliesTo, PartShown;
    var r, parts, shown := RepliesTo(ass.parts, toolMsgs), ass.parts, StepParts(ass, toolMsgs);
    PartsGrow(r, parts, n);
    if n == 0 {
      NothingShownYet(r, parts);
    } else {
      PrefixShown(ass, toolMsgs, n - 1);
      var m, m' := |Convert(r, parts[..n - 1]).parts|, |Convert(r, parts[..n]).parts|;
      if parts[n - 1].ToolCallPart? {
        CallShown(ass, toolMsgs, n);
        assert PartShown(ass, toolMsgs, n - 1) == [UiTool(CallCard(ass, toolMsgs, n - 1))] by { CallPartShown(ass, toolMsgs, n - 1); }
        assert shown[..m + 1] == shown[..m] + [shown[m]];
      } else {
        PlainShown(ass, toolMsgs, n);
        if m' > m {
          PlainKept(r, parts, n, m);
          assert Convert(r, parts[..n]).parts[m..][0] in PartShown(ass, toolMsgs, n - 1);
          assert shown[..m + 1] == shown[..m] + [shown[m]];
        } else {
          assert PartShown(ass, toolMsgs, n - 1) == [];
        }
      }
    }
  }

  lemma CallPartShown(ass: Message, toolMsgs: seq<Message>, j: nat)
    requires j < |ass.parts| && ass.parts[j].ToolCallPart?
    ensures PartShown(ass, toolMsgs, j) == [UiTool(CallCard(ass, toolMsgs, j))]
  {
  }

  lemma NothingShownYet(r: Replies, parts: seq<Part>)
    ensures |Convert(r, parts[..0]).parts| == 0
  {
  }

  /** One step: the parts of the message in order, each call with what the messages
      of the step say about it. */
  lemma StepIsTold(ass: Message, toolMsgs: seq<Message>)
    ensures StepParts(ass, toolMsgs) == StepShows(ass, toolMsgs, |ass.parts|)
  {
    hide Convert, RepliesTo, StepShows;
    PrefixShown(ass, toolMsgs, |ass.parts|);
    assert ass.parts[..|ass.parts|] == ass.parts;
    assert StepParts(ass, toolMsgs)[..|StepParts(ass, toolMsgs)|] == StepParts(ass, toolMsgs);
  }

  // ----- Runs of messages

  function SystemText(parts: seq<Part>): string {
    if parts == [] then ""
    else
      var before, last := SystemText(parts[..|parts| - 1]), parts[|parts| - 1];
      if last.TextPart? then before + last.text else before
  }

  function UserParts(parts: seq<Part>): seq<UiPart> {
    if parts == [] then []
    else
      var before := UserParts(parts[..|parts| - 1]);
      match parts[|parts| - 1] {
        case TextPart(_, text, meta) => before + [UiText(text, meta)]
        case FilePart(data, mediaType, filename, meta) => before + [UiFile(data, mediaType, filename, meta)]
        case ImagePart(image, mediaType) => before + [UiFile(image, mediaType, "", "")]
        case _ => before
      }
  }

  function UiOf(m: Message, parts: seq<UiPart>): UiMessage {
    UiMessage(m.id, m.role, parts, m.metadata, m.replacesId, m.replacedById, m.synthetic)
  }

  predicate InRun(m: Message) {
    m.role == Assistant || m.role == Tool
  }

  predicate IsReplacementBoundary(ui: UiMessage, next: Message) {
    ui.replacedById != "" || ui.replacesId != "" || next.replacedById != "" || next.replacesId != ""
  }

  /** The tool messages at the start of `ms`. */
  function LeadingTools(ms: seq<Message>): (n: nat)
    ensures n <= |ms|
  {
    if ms != [] && ms[0].role == Tool then 1 + LeadingTools(ms[1..]) else 0
  }

  /** One more step of the message, after a separator if it is not the first. */
  function WithStep(ui: UiMessage, parts: seq<UiPart>): UiMessage {
    ui.(parts := if ui.parts != [] then ui.parts + [UiStepStart] + parts else parts)
  }

  datatype Run = Run(ui: UiMessage, length: nat)

  /** The run at the start of `ms`, up to another role or to a message that
      replaces another. */
  function RunOf(ui: UiMessage, ms: seq<Message>): (r: Run)
    ensures r.length <= |ms|
    ensures ms != [] && ms[0].role == Assistant && ui.parts == [] ==> 0 < r.length
    decreases |ms|
  {
    if ms == [] || !InRun(ms[0]) then Run(ui, 0)
    else if ms[0].role == Tool then
      var rest := RunOf(ui, ms[1..]);
      Run(rest.ui, 1 + rest.length)
    else if ui.parts != [] && IsReplacementBoundary(ui, ms[0]) then Run(ui, 0)
    else
      var tools := LeadingTools(ms[1..]);
      var rest := RunOf(WithStep(ui, StepParts(ms[0], ms[1..1 + tools])), ms[1 + tools..]);
      Run(rest.ui, 1 + tools + rest.length)
  }

  function IfNotEmpty(ui: UiMessage): seq<UiMessage> {
    if ui.parts == [] then [] else [ui]
  }

  /** What the first message or run becomes, and how many messages it takes. */
  datatype Piece = Piece(shown: seq<UiMessage>, used: nat)

  function FirstPiece(ms: seq<Message>, includeSynthetic: bool): (r: Piece)
    requires ms != []
    ensures 0 < r.used <= |ms|
  {
    var m := ms[0];
    if m.synthetic && !includeSynthetic then Piece([], 1)
    else
      match m.role
      case System => Piece([UiOf(m, [UiText(SystemText(m.parts), "")])], 1)
      case User => Piece([UiOf(m, UserParts(m.parts))], 1)
      case Assistant => var run := RunOf(UiOf(m, []), ms); Piece(IfNotEmpty(run.ui), run.length)
      case _ => Piece([], 1)
  }

  /** What the user interface shows of `ms`. */
  function Project(ms: seq<Message>, includeSynthetic: bool): seq<UiMessage>
    decreases |ms|
  {
    if ms == [] then []
    else
      var first := FirstPiece(ms, includeSynthetic);
      first.shown + Project(ms[first.used..], includeSynthetic)
  }

  lemma ProjectFrom(ms: seq<Message>, i: nat, includeSynthetic: bool, shown: seq<UiMessage>)
    requires i < |ms|
    ensures var first := FirstPiece(ms[i..], includeSynthetic);
      && i + first.used <= |ms|
      && shown + Project(ms[i..], includeSynthetic) ==
           (shown + first.shown) + Project(ms[i + first.used..], includeSynthetic)
  {
    hide FirstPiece;
    var first := FirstPiece(ms[i..], includeSynthetic);
    assert ms[i..][first.used..] == ms[i + first.used..];
    var rest := Project(ms[i + first.used..], includeSynthetic);
    assert shown + (first.shown + rest) == (shown + first.shown) + rest;
  }

  /** projectUIMessages */
  method ProjectUIMessages(messages: seq<Message>, includeSynthetic: bool) returns (result: seq<UiMessage>)
    ensures result == Project(messages, includeSynthetic)
  {
    hide RunOf, Project, SystemText, UserParts;
    result := [];
    var i: nat := 0;
    assert messages[0..] == messages && [] + Project(messages, includeSynthetic) == Project(messages, includeSynthetic);
    while i < |messages|
      invariant i <= |messages| && Project(messages, includeSynthetic) == result + Project(messages[i..], includeSynthetic)
      decreases |messages| - i
    {
      var msg := messages[i];
      assert messages[i..][0] == msg;
      ProjectFrom(messages, i, includeSynthetic, result);
      if msg.synthetic && !includeSynthetic {
        assert result + [] == result;
        i := i + 1;
        continue;
      }
      match msg.role {
        case System =>
          result := result + [UiOf(msg, [UiText(SystemText(msg.parts), "")])];
          i := i + 1;
        case User =>
          result := result + [UiOf(msg, UserParts(msg.parts))];
          i := i + 1;
        case Assistant =>
          var ui, next := ProjectRun(messages, i);
          result := result + IfNotEmpty(ui);
          i := next;
        case _ =>
          assert result + [] == result;
          i := i + 1;
      }
    }
    NothingShown(includeSynthetic);
    assert messages[i..] == [];
  }

  lemma NothingShown(includeSynthetic: bool)
    ensures Project([], includeSynthetic) == []
  {
  }

  lemma RunEnds(ui: UiMessage, ms: seq<Message>, i: nat)
    requires i <= |ms|
    requires i == |ms| || !InRun(ms[i]) || (ms[i].role == Assistant && ui.parts != [] && IsReplacementBoundary(ui, ms[i]))
    ensures RunOf(ui, ms[i..]) == Run(ui, 0)
  {
  }

  lemma RunSkipsTool(ui: UiMessage, ms: seq<Message>, i: nat)
    requires i < |ms| && ms[i].role == Tool
    ensures var rest := RunOf(ui, ms[i + 1..]); RunOf(ui, ms[i..]) == Run(rest.ui, 1 + rest.length)
  {
    assert ms[i..][1..] == ms[i + 1..];
  }

  lemma RunTakesFirst(ui: UiMessage, ms: seq<Message>)
    requires ms != [] && ms[0].role == Assistant && !(ui.parts != [] && IsReplacementBoundary(ui, ms[0]))
    ensures var next := 1 + LeadingTools(ms[1..]);
      var rest := RunOf(WithStep(ui, StepParts(ms[0], ms[1..next])), ms[next..]);
      RunOf(ui, ms) == Run(rest.ui, next + rest.length)
  {
    hide StepParts, IsReplacementBoundary, WithStep;
  }

  lemma RunTakesStep(ui: UiMessage, ms: seq<Message>, i: nat, next: nat)
    requires i < |ms| && ms[i].role == Assistant && !(ui.parts != [] && IsReplacementBoundary(ui, ms[i]))
    requires next == i + 1 + LeadingTools(ms[i + 1..])
    ensures var rest := RunOf(WithStep(ui, StepParts(ms[i], ms[i + 1..next])), ms[next..]);
      RunOf(ui, ms[i..]) == Run(rest.ui, next - i + rest.length)
  {
    hide StepParts, IsReplacementBoundary, WithStep, RunOf, LeadingTools;
    var tools := LeadingTools(ms[i + 1..]);
    RunTakesFirst(ui, ms[i..]);
    assert ms[i..][1..] == ms[i + 1..];
    assert ms[i..][1..1 + tools] == ms[i + 1..next] && ms[i..][1 + tools..] == ms[next..];
  }

  /** The tool messages that follow message `at`. */
  method TakeTools(messages: seq<Message>, start: nat) returns (toolMsgs: seq<Message>, i: nat)
    requires start <= |messages|
    ensures i == start + LeadingTools(messages[start..]) && toolMsgs == messages[start..i]
  {
    i, toolMsgs := start, [];
    while i < |messages| && messages[i].role == Tool
      invariant start <= i <= |messages| && i + LeadingTools(messages[i..]) == start + LeadingTools(messages[start..])
      invariant toolMsgs == messages[start..i]
      decreases |messages| - i
    {
      assert messages[i..][1..] == messages[i + 1..];
      toolMsgs := toolMsgs + [messages[i]];
      i := i + 1;
    }
  }

  /** The inner loop: the run that begins at message `start`. */
  method ProjectRun(messages: seq<Message>, start: nat) returns (ui: UiMessage, i: nat)
    requires start < |messages| && messages[start].role == Assistant
    ensures start < i <= |messages|
    ensures Run(ui, i - start) == RunOf(UiOf(messages[start], []), messages[start..])
  {
    hide StepParts, IsReplacementBoundary, RunOf, WithStep;
    ui := UiOf(messages[start], []);
    ghost var whole := RunOf(ui, messages[start..]);
    i := start;
    while i < |messages| && InRun(messages[i])
      invariant start <= i <= |messages|
      invariant var rest := RunOf(ui, messages[i..]); whole == Run(rest.ui, i - start + rest.length)
      decreases |messages| - i
    {
      if messages[i].role == Assistant && |ui.parts| > 0 && IsReplacementBoundary(ui, messages[i]) {
        break;
      }
      if messages[i].role != Assistant {
        RunSkipsTool(ui, messages, i);
        i := i + 1;
        continue;
      }
      var toolMsgs, next := TakeTools(messages, i + 1);
      var parts := ConvertAssistantToolStepToUI(messages[i], toolMsgs);
      RunTakesStep(ui, messages, i, next);
      ui := WithStep(ui, parts);
      i := next;
    }
    RunEnds(ui, messages, i);
    RunProgress(messages[start..]);
  }

  lemma RunProgress(ms: seq<Message>)
    requires ms != [] && ms[0].role == Assistant
    ensures 0 < RunOf(UiOf(ms[0], []), ms).length
  {
  }

  // ----- What the projection tells about the calls

  predicate Displayed(p: Part) {
    p.TextPart? || p.ReasoningPart? || p.FilePart? || p.ToolCallPart? || p.SourceUrlPart? || p.SourceDocumentPart? || p.DataPart?
  }

  /** The message has something to show, whatever the tools said. */
  predicate Shows(m: Message) {
    exists p :: p in m.parts && Displayed(p)
  }

  lemma {:induction false} ShowsSomething(r: Replies, parts: seq<Part>)
    ensures |Convert(r, parts).parts| > 0 <==> exists p :: p in parts && Displayed(p)
  {
    hide NewCard, WithResult;
    if parts != [] {
      var front, last := parts[..|parts| - 1], parts[|parts| - 1];
      ShowsSomething(r, front);
      assert forall p :: p in parts <==> p in front || p == last;
      assert |Convert(r, parts).parts| > 0 <==> |Convert(r, front).parts| > 0 || Displayed(last);
    }
  }

  /** The run that is open in front of a message, by its first message. */
  datatype Open = NoRun | Running(first: Message, shown: bool)

  /** The run takes the assistant message as one more step, unless it has shown
      something already and one of the two replaces another message. */
  predicate Joins(o: Open, m: Message) {
    && o.Running? && m.role == Assistant
    && !(o.shown && (o.first.replacedById != "" || o.first.replacesId != "" || m.replacedById != "" || m.replacesId != ""))
  }

  /** An assistant message is kept unless it is synthetic and opens a run. */
  predicate Keeps(o: Open, m: Message, includeSynthetic: bool) {
    m.role == Assistant && (includeSynthetic || !m.synthetic || Joins(o, m))
  }

  function Behind(o: Open, m: Message, includeSynthetic: bool): Open {
    if m.role == Tool then o
    else if Joins(o, m) then Running(o.first, o.shown || Shows(m))
    else if Keeps(o, m, includeSynthetic) then Running(m, Shows(m))
    else NoRun
  }

  /** What the kept assistant messages say, in order: their parts, each call by the
      tool messages that follow, and a separator between the steps of a run that
      has shown something. */
  function KeptTold(o: Open, ms: seq<Message>, includeSynthetic: bool): seq<UiPart>
    decreases |ms|
  {
    if ms == [] then []
    else
      var toolMsgs := ms[1..1 + LeadingTools(ms[1..])];
      var here := if Keeps(o, ms[0], includeSynthetic) then StepTold(o, ms[0], toolMsgs) else [];
      here + KeptTold(Behind(o, ms[0], includeSynthetic), ms[1..], includeSynthetic)
  }

  function StepTold(o: Open, m: Message, toolMsgs: seq<Message>): seq<UiPart> {
    (if Joins(o, m) && o.shown then [UiStepStart] else []) + StepShows(m, toolMsgs, |m.parts|)
  }

  /** Everything that the assistant messages on screen show, in order. */
  function ShownTold(uis: seq<UiMessage>): seq<UiPart> {
    if uis == [] then [] else (if uis[0].role == Assistant then uis[0].parts else []) + ShownTold(uis[1..])
  }

  lemma {:induction false} ShownConcat(a: seq<UiMessage>, b: seq<UiMessage>)
    ensures ShownTold(a + b) == ShownTold(a) + ShownTold(b)
  {
    if a == [] {
      assert a + b == b;
    } else {
      assert (a + b)[1..] == a[1..] + b;
      ShownConcat(a[1..], b);
      var here := if a[0].role == Assistant then a[0].parts else [];
      assert here + (ShownTold(a[1..]) + ShownTold(b)) == (here + ShownTold(a[1..])) + ShownTold(b);
    }
  }

  /** Where no run goes on it does not matter that one was open. */
  lemma ClosedHere(o: Open, ms: seq<Message>, includeSynthetic: bool)
    requires ms != [] ==> ms[0].role != Tool && !Joins(o, ms[0])
    ensures KeptTold(o, ms, includeSynthetic) == KeptTold(NoRun, ms, includeSynthetic)
  {
    hide StepShows, Shows;
  }

  lemma {:induction false} ToolsTellNothing(o: Open, ms: seq<Message>, includeSynthetic: bool)
    ensures KeptTold(o, ms, includeSynthetic) == KeptTold(o, ms[LeadingTools(ms)..], includeSynthetic)
  {
    hide StepTold, Shows;
    if ms != [] && ms[0].role == Tool {
      ToolsTellNothing(o, ms[1..], includeSynthetic);
      assert ms[1..][LeadingTools(ms[1..])..] == ms[LeadingTools(ms)..];
      assert KeptTold(o, ms, includeSynthetic) == [] + KeptTold(o, ms[1..], includeSynthetic);
    } else {
      assert ms[0..] == ms;
    }
  }

  /** The run shown so far, as the scan sees it. */
  ghost predicate Sees(o: Open, ui: UiMessage) {
    && o.Running? && o.shown == (ui.parts != [])
    && o.first.replacedById == ui.replacedById && o.first.replacesId == ui.replacesId
  }

  lemma StepSeen(o: Open, ui: UiMessage, m: Message, toolMsgs: seq<Message>, includeSynthetic: bool)
    requires Sees(o, ui) && Joins(o, m)
    ensures var ui' := WithStep(ui, StepParts(m, toolMsgs));
      Sees(Behind(o, m, includeSynthetic), ui') && ui'.parts == ui.parts + StepTold(o, m, toolMsgs)
  {
    hide StepShows, StepParts, Convert;
    var parts := StepParts(m, toolMsgs);
    StepIsTold(m, toolMsgs);
    assert parts != [] <==> Shows(m) by { ShownHere(m, toolMsgs); }
    if ui.parts == [] {
      assert ui.parts + ([] + parts) == parts;
    } else {
      assert ui.parts + ([UiStepStart] + parts) == ui.parts + [UiStepStart] + parts;
    }
  }

  lemma ShownHere(m: Message, toolMsgs: seq<Message>)
    ensures StepParts(m, toolMsgs) != [] <==> Shows(m)
  {
    hide Convert;
    ShowsSomething(RepliesTo(m.parts, toolMsgs), m.parts);
  }

  /** A run shows what the steps it takes say. */
  lemma {:induction false} RunTold(o: Open, ui: UiMessage, ms: seq<Message>, includeSynthetic: bool)
    requires Sees(o, ui)
    ensures var run := RunOf(ui, ms);
      && run.ui.role == ui.role
      && run.ui.parts + KeptTold(NoRun, ms[run.length..], includeSynthetic) == ui.parts + KeptTold(o, ms, includeSynthetic)
    decreases |ms|
  {
    hide RunOf, StepParts, WithStep, StepTold, Shows, KeptTold, LeadingTools;
    assert ms[0..] == ms;
    if ms == [] || (ms[0].role != Tool && !Joins(o, ms[0])) {
      ClosedHere(o, ms, includeSynthetic);
      RunEnds(ui, ms, 0);
    } else if ms[0].role == Tool {
      RunSkipsTool(ui, ms, 0);
      RunTold(o, ui, ms[1..], includeSynthetic);
      ToolSkipped(o, ms, includeSynthetic);
      assert ms[1..][RunOf(ui, ms[1..]).length..] == ms[RunOf(ui, ms).length..];
    } else {
      var tools := LeadingTools(ms[1..]);
      var toolMsgs, rest := ms[1..1 + tools], ms[1 + tools..];
      var o', ui' := Behind(o, ms[0], includeSynthetic), WithStep(ui, StepParts(ms[0], toolMsgs));
      StepSeen(o, ui, ms[0], toolMsgs, includeSynthetic);
      RunTakesStep(ui, ms, 0, 1 + tools);
      RunTold(o', ui', rest, includeSynthetic);
      StepKept(o, ms, includeSynthetic);
      SameRole(ui, StepParts(ms[0], toolMsgs));
      assert rest[RunOf(ui', rest).length..] == ms[RunOf(ui, ms).length..];
      var told := StepTold(o, ms[0], toolMsgs);
      assert (ui.parts + told) + KeptTold(o', rest, includeSynthetic) == ui.parts + (told + KeptTold(o', rest, includeSynthetic));
    }
  }

  lemma SameRole(ui: UiMessage, parts: seq<UiPart>)
    ensures WithStep(ui, parts).role == ui.role
  {
  }

  lemma ToolSkipped(o: Open, ms: seq<Message>, includeSynthetic: bool)
    requires ms != [] && ms[0].role == Tool
    ensures KeptTold(o, ms, includeSynthetic) == KeptTold(o, ms[1..], includeSynthetic)
  {
    hide StepTold, Shows;
  }

  lemma StepKept(o: Open, ms: seq<Message>, includeSynthetic: bool)
    requires ms != [] && Keeps(o, ms[0], includeSynthetic)
    ensures var tools := LeadingTools(ms[1..]);
      KeptTold(o, ms, includeSynthetic) ==
        StepTold(o, ms[0], ms[1..1 + tools])
        + KeptTold(Behind(o, ms[0], includeSynthetic), ms[1 + tools..], includeSynthetic)
  {
    hide StepTold, Shows;
    ToolsTellNothing(Behind(o, ms[0], includeSynthetic), ms[1..], includeSynthetic);
    assert ms[1..][LeadingTools(ms[1..])..] == ms[1 + LeadingTools(ms[1..])..];
  }

  lemma PieceTold(ms: seq<Message>, includeSynthetic: bool)
    requires ms != []
    ensures var first := FirstPiece(ms, includeSynthetic);
      ShownTold(first.shown) + KeptTold(NoRun, ms[first.used..], includeSynthetic) == KeptTold(NoRun, ms, includeSynthetic)
  {
    hide StepTold, Shows, RunOf, UserParts;
    var m := ms[0];
    if m.role == Assistant && (includeSynthetic || !m.synthetic) {
      var ui := UiOf(m, []);
      var o := Running(m, false);
      RunTold(o, ui, ms, includeSynthetic);
      OpensHere(ms, includeSynthetic);
      var shown := FirstPiece(ms, includeSynthetic).shown;
      OneShown(shown);
      assert ShownTold(shown) == RunOf(ui, ms).ui.parts;
      assert ui.parts + KeptTold(o, ms, includeSynthetic) == KeptTold(o, ms, includeSynthetic);
    } else {
      OneShown(FirstPiece(ms, includeSynthetic).shown);
    }
  }

  lemma OneShown(uis: seq<UiMessage>)
    requires |uis| <= 1
    ensures ShownTold(uis) == if uis == [] || uis[0].role != Assistant then [] else uis[0].parts
  {
    assert uis != [] ==> uis[1..] == [];
  }

  /** A message that opens a run is its first step. */
  lemma OpensHere(ms: seq<Message>, includeSynthetic: bool)
    requires ms != [] && Keeps(NoRun, ms[0], includeSynthetic)
    ensures KeptTold(NoRun, ms, includeSynthetic) == KeptTold(Running(ms[0], false), ms, includeSynthetic)
  {
    hide StepShows, Shows;
  }

  /** The whole projection: the assistant messages on screen show the parts of the
      kept ones in order, each call with its state, output, error and approval as
      the messages of its own step have them. */
  lemma {:induction false} ProjectTold(ms: seq<Message>, includeSynthetic: bool)
    ensures ShownTold(Project(ms, includeSynthetic)) == KeptTold(NoRun, ms, includeSynthetic)
    decreases |ms|
  {
    hide FirstPiece, KeptTold, ShownTold;
    if ms == [] {
      EmptyTold(includeSynthetic);
    } else {
      var first := FirstPiece(ms, includeSynthetic);
      PieceTold(ms, includeSynthetic);
      ProjectTold(ms[first.used..], includeSynthetic);
      ShownConcat(first.shown, Project(ms[first.used..], includeSynthetic));
    }
  }

  lemma EmptyTold(includeSynthetic: bool)
    ensures ShownTold([]) == [] && KeptTold(NoRun, [], includeSynthetic) == []
  {
  }

  // ----- User and system messages

  function UserShows(p: Part): seq<UiPart> {
    match p
    case TextPart(_, text, meta) => [UiText(text, meta)]
    case FilePart(data, mediaType, filename, meta) => [UiFile(data, mediaType, filename, meta)]
    case ImagePart(image, mediaType) => [UiFile(image, mediaType, "", "")]
    case _ => []
  }

  /** The parts of a user message that are shown, from the first to the last. */
  function AllShown(parts: seq<Part>): seq<UiPart> {
    if parts == [] then [] else UserShows(parts[0]) + AllShown(parts[1..])
  }

  function TextOf(p: Part): string {
    if p.TextPart? then p.text else ""
  }

  function AllText(parts: seq<Part>): string {
    if parts == [] then "" else TextOf(parts[0]) + AllText(parts[1..])
  }

  lemma {:induction false} UserPartsAre(parts: seq<Part>)
    ensures UserParts(parts) == AllShown(parts) && SystemText(parts) == AllText(parts)
  {
    if parts != [] {
      var n := |parts| - 1;
      UserPartsAre(parts[..n]);
      AllShownMore(parts[..n], parts[n]);
      AllTextMore(parts[..n], parts[n]);
      assert parts[..n] + [parts[n]] == parts;
    }
  }

  lemma {:induction false} AllShownMore(parts: seq<Part>, last: Part)
    ensures AllShown(parts + [last]) == AllShown(parts) + UserShows(last)
  {
    hide UserShows;
    if parts == [] {
      assert ([] + [last])[1..] == [];
      assert UserShows(last) + [] == UserShows(last);
    } else {
      AllShownMore(parts[1..], last);
      assert (parts + [last])[1..] == parts[1..] + [last];
      var a, b, c := UserShows(parts[0]), AllShown(parts[1..]), UserShows(last);
      assert a + (b + c) == (a + b) + c;
    }
  }

  lemma {:induction false} AllTextMore(parts: seq<Part>, last: Part)
    ensures AllText(parts + [last]) == AllText(parts) + TextOf(last)
  {
    hide TextOf;
    if parts == [] {
      assert ([] + [last])[1..] == [];
      assert TextOf(last) + "" == TextOf(last);
    } else {
      AllTextMore(parts[1..], last);
      assert (parts + [last])[1..] == parts[1..] + [last];
      var a, b, c := TextOf(parts[0]), AllText(parts[1..]), TextOf(last);
      assert a + (b + c) == (a + b) + c;
    }
  }

  /** A message on screen stands for the message `m`. */
  predicate StandsFor(ui: UiMessage, m: Message) {
    && ui.id == m.id && ui.role == m.role && ui.metadata == m.metadata && ui.synthetic == m.synthetic
    && ui.replacesId == m.replacesId && ui.replacedById == m.replacedById
  }

  predicate ShowsMessage(ui: UiMessage, m: Message) {
    StandsFor(ui, m) && ui.parts == if m.role == System then [UiText(AllText(m.parts), "")] else AllShown(m.parts)
  }

  function Other(ui: UiMessage): seq<UiMessage> {
    if ui.role == Assistant then [] else [ui]
  }

  function OthersOf(uis: seq<UiMessage>): seq<UiMessage> {
    if uis == [] then [] else Other(uis[0]) + OthersOf(uis[1..])
  }

  /** The user and system messages that are shown. */
  function OthersKept(ms: seq<Message>, includeSynthetic: bool): seq<Message> {
    if ms == [] then []
    else
      var here := (ms[0].role == User || ms[0].role == System) && (includeSynthetic || !ms[0].synthetic);
      (if here then [ms[0]] else []) + OthersKept(ms[1..], includeSynthetic)
  }

  lemma {:induction false} OthersConcat(a: seq<UiMessage>, b: seq<UiMessage>)
    ensures OthersOf(a + b) == OthersOf(a) + OthersOf(b)
  {
    hide Other;
    if a == [] {
      assert a + b == b;
    } else {
      OthersConcat(a[1..], b);
      assert (a + b)[1..] == a[1..] + b;
      var x, y, z := Other(a[0]), OthersOf(a[1..]), OthersOf(b);
      assert x + (y + z) == (x + y) + z;
    }
  }

  /** A run takes assistant and tool messages only. */
  lemma {:induction false} RunIsInRun(ui: UiMessage, ms: seq<Message>)
    ensures forall i :: 0 <= i < RunOf(ui, ms).length ==> InRun(ms[i])
    decreases |ms|
  {
    hide StepParts, WithStep;
    if ms == [] || !InRun(ms[0]) || (ms[0].role == Assistant && ui.parts != [] && IsReplacementBoundary(ui, ms[0])) {
    } else if ms[0].role == Tool {
      RunIsInRun(ui, ms[1..]);
      assert forall i :: 0 < i < |ms| ==> ms[i] == ms[1..][i - 1];
    } else {
      var tools := LeadingTools(ms[1..]);
      var next := WithStep(ui, StepParts(ms[0], ms[1..1 + tools]));
      LeadingAreTools(ms[1..]);
      RunIsInRun(next, ms[1 + tools..]);
      assert forall i :: 0 < i < 1 + tools ==> ms[i] == ms[1..][i - 1];
      assert forall i :: 1 + tools <= i < |ms| ==> ms[i] == ms[1 + tools..][i - 1 - tools];
    }
  }

  lemma {:induction false} LeadingAreTools(ms: seq<Message>)
    ensures forall i :: 0 <= i < LeadingTools(ms) ==> ms[i].role == Tool
  {
    if ms != [] && ms[0].role == Tool {
      LeadingAreTools(ms[1..]);
      assert forall i :: 0 < i < |ms| ==> ms[i] == ms[1..][i - 1];
    }
  }

  lemma {:induction false} NoOthersAmong(ms: seq<Message>, n: nat, includeSynthetic: bool)
    requires n <= |ms| && forall i :: 0 <= i < n ==> InRun(ms[i])
    ensures OthersKept(ms, includeSynthetic) == OthersKept(ms[n..], includeSynthetic)
  {
    if n == 0 {
      assert ms[0..] == ms;
    } else {
      NoOthersAmong(ms[1..], n - 1, includeSynthetic);
      assert ms[1..][n - 1..] == ms[n..];
    }
  }

  lemma {:induction false} RunStandsFor(ui: UiMessage, ms: seq<Message>, m: Message)
    requires StandsFor(ui, m)
    ensures StandsFor(RunOf(ui, ms).ui, m)
    decreases |ms|
  {
    hide StepParts;
    if ms == [] || !InRun(ms[0]) || (ms[0].role == Assistant && ui.parts != [] && IsReplacementBoundary(ui, ms[0])) {
    } else if ms[0].role == Tool {
      RunStandsFor(ui, ms[1..], m);
    } else {
      var tools := LeadingTools(ms[1..]);
      RunStandsFor(WithStep(ui, StepParts(ms[0], ms[1..1 + tools])), ms[1 + tools..], m);
    }
  }

  /** Every message on screen stands for a message with its role: an assistant one for
      the first of its run. */
  lemma {:induction false} EachStandsForOne(ms: seq<Message>, includeSynthetic: bool)
    ensures forall ui :: ui in Project(ms, includeSynthetic) ==> exists m :: m in ms && StandsFor(ui, m)
    decreases |ms|
  {
    hide RunOf, StandsFor, UserParts, SystemText;
    if ms != [] {
      var first := FirstPiece(ms, includeSynthetic);
      EachStandsForOne(ms[first.used..], includeSynthetic);
      FirstStandsFor(ms, includeSynthetic);
      assert Project(ms, includeSynthetic) == first.shown + Project(ms[first.used..], includeSynthetic);
      forall ui | ui in Project(ms, includeSynthetic)
        ensures exists m :: m in ms && StandsFor(ui, m)
      {
        if ui in first.shown {
          assert ms[0] in ms;
        } else {
          assert ui in Project(ms[first.used..], includeSynthetic);
          var m :| m in ms[first.used..] && StandsFor(ui, m);
          assert m in ms;
        }
      }
    }
  }

  lemma FirstStandsFor(ms: seq<Message>, includeSynthetic: bool)
    requires ms != []
    ensures forall ui :: ui in FirstPiece(ms, includeSynthetic).shown ==> StandsFor(ui, ms[0])
  {
    hide RunOf, UserParts, SystemText;
    if ms[0].role == Assistant {
      RunStandsFor(UiOf(ms[0], []), ms, ms[0]);
    }
  }

  /** The user and system messages on screen are the kept ones, in order: each under
      its own ID, a user message with its texts and files, a system message with all
      its text. */
  lemma {:induction false} OthersAreShown(ms: seq<Message>, includeSynthetic: bool)
    ensures var shown, kept := OthersOf(Project(ms, includeSynthetic)), OthersKept(ms, includeSynthetic);
      |shown| == |kept| && forall i :: 0 <= i < |shown| ==> ShowsMessage(shown[i], kept[i])
    decreases |ms|
  {
    hide RunOf, ShowsMessage;
    if ms != [] {
      var first := FirstPiece(ms, includeSynthetic);
      OthersAreShown(ms[first.used..], includeSynthetic);
      OthersConcat(first.shown, Project(ms[first.used..], includeSynthetic));
      FirstOthers(ms, includeSynthetic);
    }
  }

  lemma FirstOthers(ms: seq<Message>, includeSynthetic: bool)
    requires ms != []
    ensures var first := FirstPiece(ms, includeSynthetic); var shown := OthersOf(first.shown);
      && OthersKept(ms, includeSynthetic) ==
           (if shown == [] then [] else [ms[0]]) + OthersKept(ms[first.used..], includeSynthetic)
      && (shown == [] || (|shown| == 1 && ShowsMessage(shown[0], ms[0])))
  {
    hide RunOf, UserParts, SystemText, AllShown, AllText;
    var m := ms[0];
    UserPartsAre(m.parts);
    if m.role == Assistant && (includeSynthetic || !m.synthetic) {
      RunIsInRun(UiOf(m, []), ms);
      NoOthersAmong(ms, RunOf(UiOf(m, []), ms).length, includeSynthetic);
      RunStandsFor(UiOf(m, []), ms, m);
    }
  }

  // ----- Cutting a history

  /** The run that is open behind `ms`. */
  function OpenAfter(o: Open, ms: seq<Message>, includeSynthetic: bool): Open
    decreases |ms|
  {
    if ms == [] then o else OpenAfter(Behind(o, ms[0], includeSynthetic), ms[1..], includeSynthetic)
  }

  predicate NoTool(b: seq<Message>) {
    b != [] ==> b[0].role != Tool
  }

  /** The run that is open behind `a` goes on with `b`. */
  predicate GoesOn(o: Open, b: seq<Message>) {
    b != [] && Joins(o, b[0])
  }

  lemma {:induction false} ToolsStop(a: seq<Message>, b: seq<Message>)
    requires NoTool(b)
    ensures LeadingTools(a + b) == LeadingTools(a)
  {
    if a == [] {
      assert a + b == b;
    } else {
      assert (a + b)[1..] == a[1..] + b;
      ToolsStop(a[1..], b);
    }
  }

  lemma {:induction false} ToolsKeepOpen(o: Open, ms: seq<Message>, includeSynthetic: bool)
    ensures OpenAfter(o, ms, includeSynthetic) == OpenAfter(o, ms[LeadingTools(ms)..], includeSynthetic)
  {
    hide Joins, Keeps;
    if ms != [] && ms[0].role == Tool {
      ToolsKeepOpen(o, ms[1..], includeSynthetic);
      assert ms[1..][LeadingTools(ms[1..])..] == ms[LeadingTools(ms)..];
    } else {
      assert ms[0..] == ms;
    }
  }

  lemma OpenClosed(o: Open, ms: seq<Message>, includeSynthetic: bool)
    requires ms != [] && ms[0].role != Tool && !Joins(o, ms[0])
    ensures OpenAfter(o, ms, includeSynthetic) == OpenAfter(NoRun, ms, includeSynthetic)
  {
  }

  /** What a run does at the end of `a` when `b` follows. */
  ghost predicate RunCutAt(o: Open, ui: UiMessage, a: seq<Message>, b: seq<Message>, includeSynthetic: bool) {
    var r, after := RunOf(ui, a), OpenAfter(o, a, includeSynthetic);
    && (r.length < |a| ==> after == OpenAfter(NoRun, a[r.length..], includeSynthetic) && RunOf(ui, a + b) == r)
    && (r.length == |a| ==>
          && Sees(after, r.ui)
          && RunOf(ui, a + b) == if GoesOn(after, b) then Run(RunOf(r.ui, b).ui, |a| + RunOf(r.ui, b).length) else r)
  }

  lemma {:induction false} RunCut(o: Open, ui: UiMessage, a: seq<Message>, b: seq<Message>, includeSynthetic: bool)
    requires Sees(o, ui) && NoTool(b)
    ensures RunCutAt(o, ui, a, b, includeSynthetic)
    decreases |a|
  {
    hide RunOf, StepParts, WithStep, OpenAfter, Behind, LeadingTools, StepTold;
    var ab := a + b;
    assert ab[0..] == ab && a[0..] == a;
    if a == [] {
      assert ab == b;
      OpenOfNothing(o, includeSynthetic);
      RunEnds(ui, a, 0);
      if b != [] && !GoesOn(o, b) {
        RunEnds(ui, b, 0);
        assert b[0..] == b;
      }
    } else if a[0].role == Tool {
      assert ab[1..] == a[1..] + b;
      RunSkipsTool(ui, ab, 0);
      RunSkipsTool(ui, a, 0);
      OpenSkipsTool(o, a, includeSynthetic);
      RunCut(o, ui, a[1..], b, includeSynthetic);
      assert a[1..][RunOf(ui, a[1..]).length..] == a[RunOf(ui, a).length..];
    } else if Joins(o, a[0]) {
      assert ab[1..] == a[1..] + b;
      ToolsStop(a[1..], b);
      var next := 1 + LeadingTools(a[1..]);
      RunTakesStep(ui, ab, 0, next);
      RunTakesStep(ui, a, 0, next);
      assert ab[1..next] == a[1..next] && ab[next..] == a[next..] + b;
      var o', ui' := Behind(o, a[0], includeSynthetic), WithStep(ui, StepParts(a[0], a[1..next]));
      StepSeen(o, ui, a[0], a[1..next], includeSynthetic);
      OpenTakesStep(o, a, includeSynthetic);
      RunCut(o', ui', a[next..], b, includeSynthetic);
      assert a[next..][RunOf(ui', a[next..]).length..] == a[RunOf(ui, a).length..];
    } else {
      RunEnds(ui, ab, 0);
      RunEnds(ui, a, 0);
      OpenClosed(o, a, includeSynthetic);
    }
  }

  lemma OpenOfNothing(o: Open, includeSynthetic: bool)
    ensures OpenAfter(o, [], includeSynthetic) == o
  {
  }

  lemma OpenSkipsTool(o: Open, a: seq<Message>, includeSynthetic: bool)
    requires a != [] && a[0].role == Tool
    ensures OpenAfter(o, a, includeSynthetic) == OpenAfter(o, a[1..], includeSynthetic)
  {
  }

  lemma OpenTakesStep(o: Open, a: seq<Message>, includeSynthetic: bool)
    requires a != [] && a[0].role == Assistant
    ensures var next := 1 + LeadingTools(a[1..]);
      OpenAfter(o, a, includeSynthetic) == OpenAfter(Behind(o, a[0], includeSynthetic), a[next..], includeSynthetic)
  {
    ToolsKeepOpen(Behind(o, a[0], includeSynthetic), a[1..], includeSynthetic);
    assert a[1..][LeadingTools(a[1..])..] == a[1 + LeadingTools(a[1..])..];
  }

  /** Two runs that show something and replace nothing take the same messages. */
  lemma {:induction false} SameLength(o: Open, ui: UiMessage, p: Open, ui2: UiMessage, ms: seq<Message>)
    requires Sees(o, ui) && Sees(p, ui2) && ui.parts != [] && ui2.parts != []
    requires ui.replacesId == ui2.replacesId && ui.replacedById == ui2.replacedById
    ensures var r, r2 := RunOf(ui, ms), RunOf(ui2, ms); r.length == r2.length && r.ui.parts != [] && r2.ui.parts != []
    decreases |ms|
  {
    hide StepParts, LeadingTools;
    assert ms[0..] == ms;
    if ms == [] || (ms[0].role != Tool && !Joins(o, ms[0])) {
      RunEnds(ui, ms, 0);
      RunEnds(ui2, ms, 0);
    } else if ms[0].role == Tool {
      RunSkipsTool(ui, ms, 0);
      RunSkipsTool(ui2, ms, 0);
      SameLength(o, ui, p, ui2, ms[1..]);
    } else {
      var next := 1 + LeadingTools(ms[1..]);
      RunTakesStep(ui, ms, 0, next);
      RunTakesStep(ui2, ms, 0, next);
      var parts := StepParts(ms[0], ms[1..next]);
      SameLength(Running(o.first, true), WithStep(ui, parts), Running(p.first, true), WithStep(ui2, parts), ms[next..]);
    }
  }

  predicate Dropped(m: Message, includeSynthetic: bool) {
    m.synthetic && !includeSynthetic
  }

  /** The piece at the start of `a`, when it is no run. */
  lemma PlainPiece(a: seq<Message>, b: seq<Message>, includeSynthetic: bool)
    requires a != [] && (Dropped(a[0], includeSynthetic) || a[0].role != Assistant)
    ensures FirstPiece(a + b, includeSynthetic) == FirstPiece(a, includeSynthetic) && FirstPiece(a, includeSynthetic).used == 1
    ensures OpenAfter(NoRun, a, includeSynthetic) == OpenAfter(NoRun, a[1..], includeSynthetic)
  {
  }

  lemma RunPiece(a: seq<Message>, includeSynthetic: bool)
    requires a != [] && !Dropped(a[0], includeSynthetic) && a[0].role == Assistant
    ensures var run := RunOf(UiOf(a[0], []), a);
      && FirstPiece(a, includeSynthetic) == Piece(IfNotEmpty(run.ui), run.length) && 0 < run.length
      && Project(a, includeSynthetic) == IfNotEmpty(run.ui) + Project(a[run.length..], includeSynthetic)
    ensures OpenAfter(NoRun, a, includeSynthetic) == OpenAfter(Running(a[0], false), a, includeSynthetic)
  {
  }

  lemma FirstOfTwo(a: seq<Message>, b: seq<Message>, includeSynthetic: bool)
    requires a != [] && FirstPiece(a + b, includeSynthetic) == FirstPiece(a, includeSynthetic)
    ensures var n := FirstPiece(a, includeSynthetic).used; var shown := FirstPiece(a, includeSynthetic).shown;
      && Project(a, includeSynthetic) == shown + Project(a[n..], includeSynthetic)
      && Project(a + b, includeSynthetic) == shown + Project(a[n..] + b, includeSynthetic)
  {
    hide FirstPiece;
    assert (a + b)[FirstPiece(a, includeSynthetic).used..] == a[FirstPiece(a, includeSynthetic).used..] + b;
  }

  /** What is shown of two pieces that one run goes through. */
  ghost predicate Cut(a: seq<Message>, b: seq<Message>, includeSynthetic: bool) {
    var after := OpenAfter(NoRun, a, includeSynthetic);
    var whole, first, second := Project(a + b, includeSynthetic), Project(a, includeSynthetic), Project(b, includeSynthetic);
    && (!GoesOn(after, b) ==> whole == first + second)
    && (GoesOn(after, b) && after.shown && Shows(b[0]) && !Dropped(b[0], includeSynthetic) ==> |whole| + 1 == |first| + |second|)
  }

  lemma {:induction false} ProjectCut(a: seq<Message>, b: seq<Message>, includeSynthetic: bool)
    requires NoTool(b)
    ensures Cut(a, b, includeSynthetic)
    decreases |a|
  {
    hide FirstPiece, RunOf, OpenAfter, Project, Shows, Joins;
    if a == [] {
      assert a + b == b;
      OpenOfNothing(NoRun, includeSynthetic);
      NothingShown(includeSynthetic);
      NothingJoins(b);
    } else if Dropped(a[0], includeSynthetic) || a[0].role != Assistant {
      PlainPiece(a, b, includeSynthetic);
      FirstOfTwo(a, b, includeSynthetic);
      ProjectCut(a[1..], b, includeSynthetic);
    } else {
      RunPiece(a, includeSynthetic);
      var ui, o := UiOf(a[0], []), Running(a[0], false);
      RunCut(o, ui, a, b, includeSynthetic);
      var run := RunOf(ui, a);
      if run.length < |a| {
        RunPiece(a + b, includeSynthetic);
        FirstOfTwo(a, b, includeSynthetic);
        ProjectCut(a[run.length..], b, includeSynthetic);
      } else {
        RunToTheEnd(a, b, includeSynthetic);
      }
    }
  }

  lemma NothingJoins(b: seq<Message>)
    ensures !GoesOn(NoRun, b)
  {
  }

  /** The last run of `a` reaches its end. */
  lemma {:induction false} RunToTheEnd(a: seq<Message>, b: seq<Message>, includeSynthetic: bool)
    requires a != [] && !Dropped(a[0], includeSynthetic) && a[0].role == Assistant && NoTool(b)
    requires RunOf(UiOf(a[0], []), a).length == |a|
    ensures Cut(a, b, includeSynthetic)
  {
    hide FirstPiece, RunOf, OpenAfter, Project;
    var ui, o := UiOf(a[0], []), Running(a[0], false);
    RunPiece(a, includeSynthetic);
    RunPiece(a + b, includeSynthetic);
    RunCut(o, ui, a, b, includeSynthetic);
    NothingShown(includeSynthetic);
    var r, after := RunOf(ui, a), OpenAfter(NoRun, a, includeSynthetic);
    assert a[|a|..] == [] && (a + b)[|a|..] == b;
    if GoesOn(after, b) && after.shown && Shows(b[0]) && !Dropped(b[0], includeSynthetic) {
      RunGoesOn(after, r.ui, b, includeSynthetic);
      var n := RunOf(r.ui, b).length;
      assert (a + b)[|a| + n..] == b[n..];
    }
  }

  lemma RunGoesOn(o: Open, ui: UiMessage, b: seq<Message>, includeSynthetic: bool)
    requires Sees(o, ui) && o.shown && GoesOn(o, b) && Shows(b[0]) && !Dropped(b[0], includeSynthetic)
    ensures var n := RunOf(ui, b).length;
      RunOf(ui, b).ui.parts != [] && |Project(b, includeSynthetic)| == 1 + |Project(b[n..], includeSynthetic)|
  {
    hide FirstPiece, RunOf, StepParts, Shows, LeadingTools;
    RunPiece(b, includeSynthetic);
    assert b[0..] == b;
    var next := 1 + LeadingTools(b[1..]);
    var parts, own := StepParts(b[0], b[1..next]), UiOf(b[0], []);
    RunTakesStep(ui, b, 0, next);
    RunTakesStep(own, b, 0, next);
    ShownHere(b[0], b[1..next]);
    SameLength(Running(o.first, true), WithStep(ui, parts), Running(b[0], true), WithStep(own, parts), b[next..]);
  }

  /** A history may be cut in front of any user or system message: what is
      shown of the whole is what is shown of the two pieces. */
  lemma ProjectConcat(a: seq<Message>, b: seq<Message>, includeSynthetic: bool)
    requires b != [] ==> !InRun(b[0])
    ensures Project(a + b, includeSynthetic) == Project(a, includeSynthetic) + Project(b, includeSynthetic)
  {
    hide Project, OpenAfter;
    ProjectCut(a, b, includeSynthetic);
  }

  /** In front of an assistant message that shows something, behind a history
      whose open run shows something, it may be cut if and only if that run does
      not take the message: two steps of one run are one message. */
  lemma CutExactly(a: seq<Message>, b: seq<Message>, includeSynthetic: bool)
    requires b != [] && b[0].role == Assistant && Shows(b[0]) && !Dropped(b[0], includeSynthetic)
    requires var after := OpenAfter(NoRun, a, includeSynthetic); after.Running? ==> after.shown
    ensures Project(a + b, includeSynthetic) == Project(a, includeSynthetic) + Project(b, includeSynthetic) <==>
            !Joins(OpenAfter(NoRun, a, includeSynthetic), b[0])
  {
    hide Project, OpenAfter, Shows;
    ProjectCut(a, b, includeSynthetic);
  }
}
