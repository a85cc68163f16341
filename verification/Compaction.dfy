/** Where a history may be split for summarisation, and how much of it. */
module HistorySplit {
  import opened Messages
  import opened Text
  import opened ToolClosure

  // ----- Token estimates

  /** The length of the JSON encoding of a tool output; nothing depends on it. */
  type OutputSize = Output -> nat

  function PartTokens(size: OutputSize, p: Part): nat {
    match p
    case TextPart(_, text, _) => (ByteLength(text) + 3) / 4
    case ReasoningPart(_, text, _) => (ByteLength(text) + 3) / 4
    case ToolCallPart(_, toolName, input, _) => (ByteLength(toolName) + ByteLength(input) + 3) / 4
    case ToolResultPart(_, _, output) => (size(output) + 3) / 4
    case ImagePart(_, _) => 256
    case FilePart(data, _, _, _) => (ByteLength(data) + 3) / 4
    case _ => 0
  }

  /** The bytes of a part that reach the model as text. */
  function TextBytes(size: OutputSize, p: Part): nat {
    if p.TextPart? || p.ReasoningPart? then ByteLength(p.text)
    else if p.ToolCallPart? then ByteLength(p.toolName) + ByteLength(p.input)
    else if p.ToolResultPart? then size(p.output)
    else if p.FilePart? then ByteLength(p.data)
    else 0
  }

  /** A token for every four bytes begun; an image has a price of its own. */
  lemma FourBytesAToken(size: OutputSize, p: Part)
    requires !p.ImagePart?
    ensures var tokens := PartTokens(size, p); TextBytes(size, p) <= 4 * tokens < TextBytes(size, p) + 4
  {
  }

  function PartsTokens(size: OutputSize, parts: seq<Part>): nat {
    if parts == [] then 0
    else PartsTokens(size, parts[..|parts| - 1]) + PartTokens(size, parts[|parts| - 1])
  }

  function RawTokens(size: OutputSize, ms: seq<Message>): nat {
    if ms == [] then 0
    else RawTokens(size, ms[..|ms| - 1]) + PartsTokens(size, ms[|ms| - 1].parts)
  }

  /** estimateTokens never answers less than one. */
  function Estimate(size: OutputSize, ms: seq<Message>): nat {
    if RawTokens(size, ms) < 1 then 1 else RawTokens(size, ms)
  }

  /** The sum of the one-message estimates. */
  function Singles(size: OutputSize, ms: seq<Message>): nat {
    if ms == [] then 0
    else Singles(size, ms[..|ms| - 1]) + Estimate(size, [ms[|ms| - 1]])
  }

  method EstimateTokens(size: OutputSize, messages: seq<Message>) returns (total: nat)
    ensures total == Estimate(size, messages)
  {
    total := 0;
    for i := 0 to |messages|
      invariant total == RawTokens(size, messages[..i])
    {
      var parts := messages[i].parts;
      for j := 0 to |parts|
        invariant total == RawTokens(size, messages[..i]) + PartsTokens(size, parts[..j])
      {
        assert parts[..j + 1][..j] == parts[..j];
        total := total + PartTokens(size, parts[j]);
      }
      assert parts[..|parts|] == parts;
      assert messages[..i + 1][..i] == messages[..i];
    }
    assert messages[..|messages|] == messages;
    if total < 1 {
      total := 1;
    }
  }

  lemma {:induction false} RawConcat(size: OutputSize, a: seq<Message>, b: seq<Message>)
    ensures RawTokens(size, a + b) == RawTokens(size, a) + RawTokens(size, b)
  {
    if b == [] {
      assert a + b == a;
    } else {
      assert (a + b)[..|a + b| - 1] == a + b[..|b| - 1];
      RawConcat(size, a, b[..|b| - 1]);
    }
  }

  /** A longer history is never estimated lower. */
  lemma EstimateMonotone(size: OutputSize, ms: seq<Message>, i: nat)
    requires i <= |ms|
    ensures Estimate(size, ms[..i]) <= Estimate(size, ms)
  {
    assert ms == ms[..i] + ms[i..];
    RawConcat(size, ms[..i], ms[i..]);
  }

  /** The estimate of a history is at most the sum of the estimates of its
      messages. */
  lemma {:induction false} EstimateBelowSingles(size: OutputSize, ms: seq<Message>)
    requires ms != []
    ensures Estimate(size, ms) <= Singles(size, ms)
  {
    var front, last := ms[..|ms| - 1], ms[|ms| - 1];
    RawConcat(size, front, [last]);
    assert ms == front + [last];
    if front != [] {
      EstimateBelowSingles(size, front);
    }
  }

  lemma {:induction false} SinglesMonotone(size: OutputSize, ms: seq<Message>, i: nat, j: nat)
    requires i <= j <= |ms|
    ensures Singles(size, ms[..i]) <= Singles(size, ms[..j])
    decreases j
  {
    if i < j {
      assert ms[..j][..j - 1] == ms[..j - 1];
      SinglesMonotone(size, ms, i, j - 1);
    }
  }

  // ----- Safe split points

  function AllCallIds(m: Message): set<string> {
    set p | p in m.parts && p.ToolCallPart? :: p.callId
  }

  /** The results that the tool messages of ms[lo..hi] hold. */
  function ResultsBetween(ms: seq<Message>, lo: nat, hi: nat): set<string>
    requires lo <= hi <= |ms|
    decreases hi
  {
    if lo == hi then {}
    else
      var before := ResultsBetween(ms, lo, hi - 1);
      if ms[hi - 1].role == Tool then before + ResultIds(ms[hi - 1]) else before
  }

  predicate IsLastAssistant(ms: seq<Message>, a: nat, end: nat) {
    a < end <= |ms| && ms[a].role == Assistant && forall j :: a < j < end ==> ms[j].role != Assistant
  }

  /** allToolCallsResolved: the assistant message nearest before the last
      message of ms[..end] has all its calls, the provider's own included,
      answered by tool messages. */
  predicate Resolved(ms: seq<Message>, end: nat)
    requires 0 < end <= |ms|
  {
    forall a :: 0 <= a < end - 1 && IsLastAssistant(ms, a, end - 1) ==> AllCallIds(ms[a]) <= ResultsBetween(ms, a + 1, end)
  }

  method AllToolCallsResolved(messages: seq<Message>, endPos: nat) returns (resolved: bool)
    requires 0 < endPos <= |messages|
    ensures resolved == Resolved(messages, endPos)
  {
    var assistantPos := endPos - 2;
    while assistantPos >= 0 && messages[assistantPos].role != Assistant
      invariant -1 <= assistantPos < endPos - 1
      invariant forall j :: assistantPos < j < endPos - 1 ==> messages[j].role != Assistant
    {
      assistantPos := assistantPos - 1;
    }
    if assistantPos < 0 {
      return true;
    }
    assert IsLastAssistant(messages, assistantPos, endPos - 1);
    var pending := AllCallIds(messages[assistantPos]);
    if |pending| == 0 {
      return true;
    }
    ghost var calls := pending;
    assert ResultsBetween(messages, assistantPos + 1, assistantPos + 1) == {};
    for j := assistantPos + 1 to endPos
      invariant pending == calls - ResultsBetween(messages, assistantPos + 1, j)
    {
      if messages[j].role == Tool {
        pending := pending - ResultIds(messages[j]);
      }
    }
    resolved := pending == {};
  }

  /** The test of safeSplitPoint for cutting after the first `i` messages. */
  predicate SafeAt(ms: seq<Message>, i: nat)
    requires 0 < i <= |ms|
  {
    match ms[i - 1].role
    case User => true
    case Assistant => AllCallIds(ms[i - 1]) == {}
    case Tool => Resolved(ms, i)
    case _ => false
  }

  /** The largest safe point that is not past `n`, 0 when there is none. */
  method SafeSplitPoint(messages: seq<Message>, n: nat) returns (split: nat)
    ensures split <= n && split <= |messages| && (split > 0 ==> SafeAt(messages, split))
    ensures forall i :: split < i <= n && i <= |messages| ==> !SafeAt(messages, i)
  {
    split := if n > |messages| then |messages| else n;
    while split > 0
      invariant split <= n && split <= |messages|
      invariant forall i :: split < i <= n && i <= |messages| ==> !SafeAt(messages, i)
    {
      var msg := messages[split - 1];
      match msg.role {
        case User => return;
        case Assistant =>
          var hasPendingTools := HasToolCall(msg);
          if !hasPendingTools {
            return;
          }
        case Tool =>
          var resolved := AllToolCallsResolved(messages, split);
          if resolved {
            return;
          }
        case _ =>
      }
      split := split - 1;
    }
  }

  method HasToolCall(msg: Message) returns (found: bool)
    ensures found <==> AllCallIds(msg) != {}
  {
    found := false;
    for i := 0 to |msg.parts|
      invariant forall j :: 0 <= j < i ==> !msg.parts[j].ToolCallPart?
    {
      if msg.parts[i].ToolCallPart? {
        assert msg.parts[i].callId in AllCallIds(msg);
        return true;
      }
    }
  }

  // ----- Safe points of tool-closed histories

  /** Inside a readable history the open calls are those of the last assistant
      message that no tool message after it has answered. */
  lemma {:induction false} OpenCalls(ms: seq<Message>, a: nat, end: nat)
    requires IsLastAssistant(ms, a, end)
    requires Scan({}, ms[..end]).Some?
    ensures Scan({}, ms[..a]) == Some({})
    ensures CallIds(ms[a]) - ResultsBetween(ms, a + 1, end) == Scan({}, ms[..end]).value
    decreases end
  {
    assert ms[..end][..end - 1] == ms[..end - 1];
    if end > a + 1 {
      OpenCalls(ms, a, end - 1);
    } else {
      assert ResultsBetween(ms, a + 1, end) == {};
    }
  }

  lemma {:induction false} NoCallsOpen(ms: seq<Message>, end: nat)
    requires end <= |ms| && Scan({}, ms[..end]).Some?
    requires forall j :: 0 <= j < end ==> ms[j].role != Assistant
    ensures Scan({}, ms[..end]) == Some({})
  {
    if end > 0 {
      assert ms[..end][..end - 1] == ms[..end - 1];
      NoCallsOpen(ms, end - 1);
    }
  }

  lemma LastAssistant(ms: seq<Message>, end: nat) returns (a: nat)
    requires end <= |ms| && exists j :: 0 <= j < end && ms[j].role == Assistant
    ensures IsLastAssistant(ms, a, end)
  {
    a := end - 1;
    while ms[a].role != Assistant
      invariant a < end && (exists j :: 0 <= j <= a && ms[j].role == Assistant)
      decreases a
      invariant forall j :: a < j < end ==> ms[j].role != Assistant
    {
      a := a - 1;
    }
  }

  /** A tool message can only be read while calls are open. */
  lemma ToolNeedsCalls(ms: seq<Message>, i: nat)
    requires 0 < i <= |ms| && ms[i - 1].role == Tool && Scan({}, ms[..i]).Some?
    ensures exists j :: 0 <= j < i - 1 && ms[j].role == Assistant
  {
    assert ms[..i][..i - 1] == ms[..i - 1];
    if forall j :: 0 <= j < i - 1 ==> ms[j].role != Assistant {
      NoCallsOpen(ms, i - 1);
    }
  }

  lemma CallsAreCalls(m: Message)
    ensures CallIds(m) <= AllCallIds(m)
    ensures (forall p :: p in m.parts && p.ToolCallPart? ==> IsExecutorCall(p)) ==> CallIds(m) == AllCallIds(m)
  {
  }

  /** After a tool message a history is closed when the last assistant
      message has all its calls answered. */
  lemma ClosedAfterTool(ms: seq<Message>, i: nat) returns (a: nat)
    requires 0 < i <= |ms| && ms[i - 1].role == Tool && Scan({}, ms[..i]).Some?
    ensures a < i - 1 && IsLastAssistant(ms, a, i - 1)
    ensures ToolClosed(ms[..i]) <==> CallIds(ms[a]) <= ResultsBetween(ms, a + 1, i)
    ensures Resolved(ms, i) <==> AllCallIds(ms[a]) <= ResultsBetween(ms, a + 1, i)
  {
    ToolNeedsCalls(ms, i);
    a := LastAssistant(ms, i - 1);
    assert IsLastAssistant(ms, a, i);
    OpenCalls(ms, a, i);
    var calls, results := CallIds(ms[a]), ResultsBetween(ms, a + 1, i);
    assert calls - results == {} <==> calls <= results by {
      if calls - results == {} {
        assert forall c :: c in calls ==> c !in calls - results;
      }
    }
    var end: nat := i - 1;
    assert forall b :: 0 <= b < end && IsLastAssistant(ms, b, end) ==> b == a;
  }

  /** Cutting a tool-closed history at a safe point leaves two tool-closed
      histories. */
  lemma SafeIsClosed(ms: seq<Message>, i: nat)
    requires ToolClosed(ms) && 0 < i <= |ms| && SafeAt(ms, i)
    ensures ToolClosed(ms[..i]) && ToolClosed(ms[i..])
  {
    ClosedPrefixReads(ms, i);
    if ms[i - 1].role == Tool {
      hide Scan, ResultsBetween, Resolved;
      var a := ClosedAfterTool(ms, i);
      CallsAreCalls(ms[a]);
    } else {
      assert ms[..i][..i - 1] == ms[..i - 1] && ms[..i][i - 1] == ms[i - 1];
      CallsAreCalls(ms[i - 1]);
      assert CallIds(ms[i - 1]) <= {} ==> CallIds(ms[i - 1]) == {};
      assert Scan({}, ms[..i]) == Read({}, ms[i - 1]);
    }
    ClosedCut(ms, i);
  }

  /** Messages of a conversation without calls that the provider runs itself. */
  predicate OwnCallsOnly(ms: seq<Message>) {
    forall m :: m in ms ==>
      && (m.role == User || m.role == Assistant || m.role == Tool)
      && forall p :: p in m.parts && p.ToolCallPart? ==> IsExecutorCall(p)
  }

  /** Without provider-executed calls the test is exact: the safe points are
      the tool-closed prefixes and no others. */
  lemma SafeExactly(ms: seq<Message>, i: nat)
    requires ToolClosed(ms) && OwnCallsOnly(ms) && 0 < i <= |ms|
    ensures SafeAt(ms, i) <==> ToolClosed(ms[..i])
  {
    if SafeAt(ms, i) {
      SafeIsClosed(ms, i);
    }
    if ToolClosed(ms[..i]) {
      assert ms[i - 1] in ms;
      if ms[i - 1].role == Tool {
        hide Scan, ResultsBetween, Resolved;
        var a := ClosedAfterTool(ms, i);
        assert ms[a] in ms;
        CallsAreCalls(ms[a]);
      } else {
        assert ms[..i][..i - 1] == ms[..i - 1];
        CallsAreCalls(ms[i - 1]);
      }
    }
  }

  /** The calls of a message that the provider runs itself. */
  function ProviderCallIds(m: Message): set<string> {
    set p | p in m.parts && p.ToolCallPart? && !IsExecutorCall(p) :: p.callId
  }

  lemma CallsByRunner(m: Message)
    ensures AllCallIds(m) == CallIds(m) + ProviderCallIds(m)
  {
    forall c
      ensures c in AllCallIds(m) <==> c in CallIds(m) + ProviderCallIds(m)
    {
      if c in AllCallIds(m) {
        var p :| p in m.parts && p.ToolCallPart? && p.callId == c;
        assert if IsExecutorCall(p) then c in CallIds(m) else c in ProviderCallIds(m);
      }
    }
  }

  /** With provider-run calls it is not: after a tool message a cut is safe if
      and only if the history is tool-closed there and tool messages also answer
      every call that the provider ran itself in the last assistant message. */
  lemma SafeAfterTool(ms: seq<Message>, i: nat) returns (a: nat)
    requires ToolClosed(ms) && 0 < i <= |ms| && ms[i - 1].role == Tool
    ensures a < i - 1 && IsLastAssistant(ms, a, i - 1)
    ensures SafeAt(ms, i) <==> ToolClosed(ms[..i]) && ProviderCallIds(ms[a]) <= ResultsBetween(ms, a + 1, i)
  {
    hide Scan, ResultsBetween, Resolved;
    ClosedPrefixReads(ms, i);
    a := ClosedAfterTool(ms, i);
    CallsByRunner(ms[a]);
  }
}

/** Compaction: a prefix of the history is summarised, the summary is recorded
    on disk, and the record is applied again to later, longer histories. */
module Compaction {
  import opened Messages
  import opened Text
  import opened ToolClosure
  import opened ThreadStore
  import opened HistorySplit

  // ----- The split

  /** splitForRecentTail: the largest safe prefix whose messages are estimated
      at no more than three quarters of the whole. */
  method SplitForRecentTail(size: OutputSize, messages: seq<Message>) returns (split: nat)
    ensures |messages| <= 1 ==> split == |messages|
    ensures |messages| > 1 ==> split < |messages| && (split > 0 ==> SafeAt(messages, split))
    ensures |messages| > 1 && split > 1 ==> 4 * Estimate(size, messages[..split]) <= 3 * Estimate(size, messages)
    ensures |messages| > 1 && split > 1 ==> 4 * Singles(size, messages[..split]) <= 3 * Estimate(size, messages)
    ensures |messages| > 1 ==> forall i :: split < i < |messages| && SafeAt(messages, i) ==>
      i > 1 && 4 * Singles(size, messages[..i]) > 3 * Estimate(size, messages)
  {
    hide SafeAt, Estimate;
    if |messages| <= 1 {
      return |messages|;
    }
    var totalTokens := EstimateTokens(size, messages);
    var targetTokens := totalTokens * 3 / 4;
    var tokenTotal := 0;
    var targetIndex := 0;
    for i := 0 to |messages|
      invariant targetIndex == i && tokenTotal == Singles(size, messages[..i]) <= targetTokens
    {
      assert messages[..i + 1][..i] == messages[..i];
      var single := EstimateTokens(size, [messages[i]]);
      if tokenTotal + single > targetTokens {
        break;
      }
      tokenTotal := tokenTotal + single;
      targetIndex := i + 1;
    }
    TargetFits(size, messages, targetIndex);
    if targetIndex == 0 {
      targetIndex := 1;
    }
    if targetIndex >= |messages| {
      targetIndex := |messages| - 1;
    }
    split := SafeSplitPoint(messages, targetIndex);
  }

  /** Every prefix up to a fitting one fits, and every longer one than the
      first that does not fit does not. */
  lemma TargetFits(size: OutputSize, ms: seq<Message>, target: nat)
    requires target <= |ms|
    ensures forall i :: 0 < i <= target ==> Estimate(size, ms[..i]) <= Singles(size, ms[..i]) <= Singles(size, ms[..target])
    ensures forall i :: target < i <= |ms| ==> Singles(size, ms[..target + 1]) <= Singles(size, ms[..i])
  {
    forall i | 0 < i <= target
      ensures Estimate(size, ms[..i]) <= Singles(size, ms[..i]) <= Singles(size, ms[..target])
    {
      EstimateBelowSingles(size, ms[..i]);
      SinglesMonotone(size, ms, i, target);
    }
    forall i | target < i <= |ms|
      ensures Singles(size, ms[..target + 1]) <= Singles(size, ms[..i])
    {
      SinglesMonotone(size, ms, target + 1, i);
    }
  }

  // ----- Summaries

  /** What the summarising model answers: a summary, a context overflow, or
      anything else that ends the attempt. */
  datatype Reply = Summary(text: string) | TooLong | Refused

  /** The model: any answer to the `i`-th call. */
  type Summariser = (nat, seq<Message>) -> Reply

  datatype Outcome = Summarised(text: string) | GaveUp | StillGoing

  const SUMMARY_OPENS := "<conversation_summary>\n"
  const SUMMARY_CLOSES :=
    "\n</conversation_summary>\n\nThe above is a summary of our earlier conversation. Continue from where we left off."

  function SummaryMessage(text: string): Message {
    Message("", User, [TextPart("", SUMMARY_OPENS + text + SUMMARY_CLOSES, "")], "{\"compaction\":true}", false, "", "")
  }

  /** The user message that stands for a conversation carries its summary. */
  predicate Tells(m: Message, summary: string) {
    m.role == User && |m.parts| == 1 && m.parts[0].TextPart? && Contains(m.parts[0].text, summary)
  }

  lemma SummaryTells(text: string)
    ensures Tells(SummaryMessage(text), text)
  {
    hide Contains;
    ContainsInside(SUMMARY_OPENS, text, SUMMARY_CLOSES);
  }

  /** And different summaries are different messages. */
  lemma SummariesDiffer(a: string, b: string)
    requires SummaryMessage(a) == SummaryMessage(b)
    ensures a == b
  {
    var s, t := SummaryMessage(a).parts[0].text, SummaryMessage(b).parts[0].text;
    var n := |SUMMARY_OPENS|;
    assert |s| == |t| && |a| == |b|;
    assert s[n..n + |a|] == a && t[n..n + |b|] == b;
  }

  /** doSummaryCall: an empty summary is an error. */
  function Asked(provider: Summariser, i: nat, ms: seq<Message>): Reply {
    if provider(i, ms) == Summary("") then Refused else provider(i, ms)
  }

  /** One round: the first `n` messages of the working list became a summary. */
  datatype Step = Step(list: seq<Message>, n: nat, text: string)

  predicate StepOk(s: Step) {
    0 < s.n <= |s.list| / 2 && (s.n == 1 || SafeAt(s.list, s.n))
  }

  function After(s: Step): seq<Message>
    requires s.n <= |s.list|
  {
    [SummaryMessage(s.text)] + s.list[s.n..]
  }

  /** `working` is what the rounds `steps` made of `input`. */
  predicate Rounds(input: seq<Message>, steps: seq<Step>, working: seq<Message>) {
    if steps == [] then working == input
    else
      var last := steps[|steps| - 1];
      StepOk(last) && Rounds(input, steps[..|steps| - 1], last.list) && working == After(last)
  }

  /** Every summary was the model's answer to the prefix it stands for. */
  ghost predicate Answers(provider: Summariser, steps: seq<Step>) {
    forall i :: 0 <= i < |steps| ==> Answer(provider, steps[i])
  }

  ghost predicate Answer(provider: Summariser, s: Step) {
    s.n <= |s.list| && exists c: nat :: Asked(provider, c, s.list[..s.n]) == Summary(s.text)
  }

  predicate OpensNothing(m: Message) {
    m.role != Assistant || CallIds(m) == {}
  }

  /** A tool-closed list whose first message opens no executor call. */
  predicate Summarisable(ms: seq<Message>) {
    ToolClosed(ms) && (ms != [] ==> OpensNothing(ms[0]))
  }

  /** The list is summarised in parts when it is too long as a whole. */
  predicate HasCut(ms: seq<Message>) {
    exists i :: 0 < i <= |ms| / 2 && SafeAt(ms, i)
  }

  /** The last resort, the first message alone, would cut a step in two. */
  predicate CutsAStep(ms: seq<Message>) {
    HasCut(ms) && !OpensNothing(ms[0])
  }

  ghost predicate AllClosed(asked: seq<seq<Message>>) {
    forall s :: s in asked ==> ToolClosed(s)
  }

  /** Rejects everything longer than one message, and accepts that. */
  ghost predicate Stubborn(provider: Summariser) {
    forall i: nat, ms :: Asked(provider, i, ms).Summary? == (|ms| <= 1) && (|ms| > 1 ==> Asked(provider, i, ms).TooLong?)
  }

  /** The summary of the round is estimated below the messages it stands for. */
  predicate Shrinks(size: OutputSize, s: Step) {
    s.n <= |s.list| && Estimate(size, [SummaryMessage(s.text)]) < Estimate(size, s.list[..s.n])
  }

  lemma FirstIsSafe(ms: seq<Message>)
    requires ms != [] && ms[0].role == User
    ensures SafeAt(ms, 1) && ToolClosed(ms[..1])
  {
    assert ms[..1] == [] + [ms[0]];
    ScanSnoc({}, [], ms[0]);
  }

  /** The first message of a tool-closed list is tool-closed by itself exactly when
      it opens no call. */
  lemma FirstIsClosed(ms: seq<Message>)
    requires ToolClosed(ms) && ms != []
    ensures ms[..1] == [ms[0]] && (ToolClosed([ms[0]]) <==> OpensNothing(ms[0]))
  {
    assert ms[..1] == [] + [ms[0]];
    ClosedPrefixReads(ms, 1);
    ScanSnoc({}, [], ms[0]);
  }

  lemma PrefixIsClosed(ms: seq<Message>, n: nat)
    requires ToolClosed(ms) && 0 < n <= |ms| && (n == 1 || SafeAt(ms, n)) && (n == 1 ==> OpensNothing(ms[0]))
    ensures ToolClosed(ms[..n]) && ToolClosed(ms[n..])
  {
    if n == 1 {
      FirstIsClosed(ms);
      ClosedCut(ms, 1);
    } else {
      SafeIsClosed(ms, n);
    }
  }

  /** A summary in front of a tool-closed list. */
  lemma SummaryFirst(text: string, rest: seq<Message>)
    requires ToolClosed(rest)
    ensures Summarisable([SummaryMessage(text)] + rest)
  {
    FirstIsSafe([SummaryMessage(text)]);
    SummaryIsUser(text);
    assert [SummaryMessage(text)][..1] == [SummaryMessage(text)];
    ScanConcat({}, [SummaryMessage(text)], rest);
  }

  /** The inner loop of generateSummary: a batch that is too long is halved,
      down to a single message as the last resort. */
  method SummarisePrefix(provider: Summariser, calls: nat, messages: seq<Message>, first: nat)
    returns (done: bool, n: nat, text: string, i: nat, ghost asked: seq<seq<Message>>)
    requires 0 < first <= |messages| / 2 && SafeAt(messages, first)
    ensures done ==> StepOk(Step(messages, n, text)) && Answer(provider, Step(messages, n, text))
    ensures done ==> messages[..n] in asked
    ensures forall s :: s in asked ==>
      s == [messages[0]] || exists j :: 0 < j <= first && SafeAt(messages, j) && s == messages[..j]
    ensures ToolClosed(messages) ==> (AllClosed(asked) <==> OpensNothing(messages[0]) || [messages[0]] !in asked)
    ensures Stubborn(provider) ==> done && n == 1
  {
    hide ToolClosed, SafeAt, Answer, OpensNothing, AllClosed;
    done, n, text, i, asked := false, first, "", calls, [];
    while true
      invariant 0 < n <= |messages| / 2 && n <= first && (n == 1 || SafeAt(messages, n))
      invariant forall s :: s in asked ==>
        s == [messages[0]] || exists j :: 0 < j <= first && SafeAt(messages, j) && s == messages[..j]
      decreases n
    {
      assert n == 1 ==> messages[..n] == [messages[0]];
      asked := asked + [messages[..n]];
      var r := Asked(provider, i, messages[..n]);
      i := i + 1;
      if r.Summary? {
        assert Answer(provider, Step(messages, n, r.text)) by { AnswerOf(provider, i - 1, messages, n, r.text); }
        done, text := true, r.text;
        break;
      }
      if r.Refused? || n == 1 {
        break;
      }
      n := SafeSplitPoint(messages, n / 2);
      if n == 0 {
        n := 1;
      }
    }
    if ToolClosed(messages) {
      RequestsClosed(messages, asked);
    }
  }

  lemma AnswerOf(provider: Summariser, c: nat, ms: seq<Message>, n: nat, text: string)
    requires n <= |ms| && Asked(provider, c, ms[..n]) == Summary(text)
    ensures Answer(provider, Step(ms, n, text))
  {
    hide Asked;
  }

  /** Safe prefixes are tool-closed, so only the last resort can be open. */
  lemma RequestsClosed(ms: seq<Message>, asked: seq<seq<Message>>)
    requires ToolClosed(ms) && ms != []
    requires forall s :: s in asked ==> s == [ms[0]] || exists j :: 0 < j <= |ms| && SafeAt(ms, j) && s == ms[..j]
    ensures AllClosed(asked) <==> OpensNothing(ms[0]) || [ms[0]] !in asked
  {
    hide ToolClosed, SafeAt, OpensNothing;
    FirstIsClosed(ms);
    forall s | s in asked && s != [ms[0]]
      ensures ToolClosed(s)
    {
      var j :| 0 < j <= |ms| && SafeAt(ms, j) && s == ms[..j];
      SafeIsClosed(ms, j);
    }
  }

  lemma NoRounds(provider: Summariser, input: seq<Message>)
    ensures Rounds(input, [], input) && Answers(provider, [])
  {
  }

  lemma StubbornRejects(provider: Summariser, i: nat, ms: seq<Message>)
    requires Stubborn(provider) && |ms| > 1
    ensures Asked(provider, i, ms).TooLong?
  {
  }

  lemma SummaryIsUser(text: string)
    ensures SummaryMessage(text).role == User
  {
  }

  lemma StepInside(s: Step)
    requires StepOk(s)
    ensures 0 < s.n <= |s.list| / 2
  {
  }

  lemma RoundAdded(
    provider: Summariser, input: seq<Message>, steps: seq<Step>, working: seq<Message>, n: nat, text: string)
    requires Rounds(input, steps, working) && Answers(provider, steps)
    requires StepOk(Step(working, n, text)) && Answer(provider, Step(working, n, text))
    ensures var longer := steps + [Step(working, n, text)];
      && Rounds(input, longer, [SummaryMessage(text)] + working[n..]) && Answers(provider, longer)
  {
    hide SafeAt, Asked, SummaryMessage, Answer;
    assert (steps + [Step(working, n, text)])[..|steps|] == steps;
  }

  /** One round leaves a tool-closed list behind one user message, unless its
      prefix was the open half of a step. */
  lemma RoundKeepsClosed(working: seq<Message>, n: nat, text: string)
    requires ToolClosed(working) && StepOk(Step(working, n, text)) && (n == 1 ==> OpensNothing(working[0]))
    ensures Summarisable([SummaryMessage(text)] + working[n..])
  {
    PrefixIsClosed(working, n);
    SummaryFirst(text, working[n..]);
  }

  /** No request was the open half of a step. */
  ghost predicate Whole(input: seq<Message>, asked: seq<seq<Message>>) {
    input == [] || OpensNothing(input[0]) || [input[0]] !in asked
  }

  /** What the rounds so far keep: the working list is the input or begins with a
      summary, and everything is tool-closed if the requests were whole. */
  ghost predicate RoundsSound(
    provider: Summariser, input: seq<Message>, steps: seq<Step>, working: seq<Message>, asked: seq<seq<Message>>)
  {
    && (if steps == [] then working == input && asked == [] else working != [] && working[0].role == User && HasCut(input))
    && (ToolClosed(input) && Whole(input, asked) ==> ToolClosed(working) && AllClosed(asked))
    && (steps != [] && Stubborn(provider) && CutsAStep(input) ==> [input[0]] in asked)
  }

  lemma RoundIsSound(
    provider: Summariser, input: seq<Message>, steps: seq<Step>, working: seq<Message>, asked: seq<seq<Message>>,
    more: seq<seq<Message>>, n: nat, text: string)
    requires RoundsSound(provider, input, steps, working, asked) && HasCut(working)
    requires StepOk(Step(working, n, text)) && working[..n] in more
    requires ToolClosed(working) ==> (AllClosed(more) <==> OpensNothing(working[0]) || [working[0]] !in more)
    requires Stubborn(provider) ==> n == 1
    ensures RoundsSound(provider, input, steps + [Step(working, n, text)], [SummaryMessage(text)] + working[n..],
      asked + [working] + more)
  {
    hide ToolClosed, SafeAt, HasCut, Stubborn, SummaryMessage, OpensNothing;
    SummaryIsUser(text);
    StepInside(Step(working, n, text));
    UserOpensNothing(working);
    var all := asked + [working] + more;
    assert n == 1 ==> working[..n] == [working[0]];
    if ToolClosed(input) && Whole(input, all) {
      RoundKeepsClosed(working, n, text);
      SummarisableIsClosed([SummaryMessage(text)] + working[n..]);
    }
  }

  lemma NoRoundsSound(provider: Summariser, input: seq<Message>)
    ensures RoundsSound(provider, input, [], input, [])
  {
  }

  lemma SoundFacts(
    provider: Summariser, input: seq<Message>, steps: seq<Step>, working: seq<Message>, asked: seq<seq<Message>>)
    requires RoundsSound(provider, input, steps, working, asked)
    ensures steps == [] ==> working == input && asked == []
    ensures steps != [] && Stubborn(provider) && CutsAStep(input) ==> [input[0]] in asked
    ensures ToolClosed(input) ==> (AllClosed(asked) <==> Whole(input, asked)) && (CutsAStep(input) || AllClosed(asked))
  {
    hide ToolClosed, HasCut, Stubborn, OpensNothing;
    if ToolClosed(input) && input != [] {
      FirstIsClosed(input);
    }
  }

  lemma CutHasTwo(ms: seq<Message>)
    ensures HasCut(ms) ==> |ms| > 1
  {
    hide SafeAt;
  }

  lemma CutFound(ms: seq<Message>, n: nat)
    requires n <= |ms| / 2 && (n > 0 ==> SafeAt(ms, n)) && forall i :: n < i <= |ms| / 2 ==> !SafeAt(ms, i)
    ensures HasCut(ms) <==> n > 0
  {
    hide SafeAt;
  }

  lemma UserOpensNothing(ms: seq<Message>)
    ensures ms != [] && ms[0].role == User ==> OpensNothing(ms[0])
  {
  }

  lemma SummarisableIsClosed(ms: seq<Message>)
    requires Summarisable(ms)
    ensures ToolClosed(ms)
  {
  }

  /** How a round ends the loop: the requests are tool-closed exactly if they were
      whole, which they are unless the list has a cut and opens calls in front. */
  lemma RequestsAtEnd(
    provider: Summariser, input: seq<Message>, steps: seq<Step>, working: seq<Message>, asked: seq<seq<Message>>,
    more: seq<seq<Message>>)
    requires RoundsSound(provider, input, steps, working, asked)
    requires more != [] ==> HasCut(working)
    requires ToolClosed(working) && more != [] ==> (AllClosed(more) <==> OpensNothing(working[0]) || [working[0]] !in more)
    ensures var all := asked + [working] + more; ToolClosed(input) ==>
      (AllClosed(all) <==> Whole(input, all)) && (CutsAStep(input) || AllClosed(all))
  {
    hide ToolClosed, SafeAt, Stubborn, OpensNothing;
    UserOpensNothing(working);
    var all := asked + [working] + more;
    assert working in all && forall s :: s in all ==> s in asked || s == working || s in more;
    if ToolClosed(input) && input != [] {
      FirstIsClosed(input);
      if steps == [] && more == [] {
        assert all == [input];
        assert [input[0]] == input || [input[0]] !in all;
      }
    }
  }

  /** generateSummary, watched for a number of rounds. It has ended by then when
      the summaries of single messages were smaller than those, no other one has
      more than `bound` tokens, and there were enough rounds. Its requests are
      tool-closed with every model exactly if CutsAStep does not hold. */
  method GenerateSummary(provider: Summariser, input: seq<Message>, rounds: nat, ghost size: OutputSize, ghost bound: nat)
    returns (r: Outcome, working: seq<Message>, ghost steps: seq<Step>, ghost asked: seq<seq<Message>>)
    ensures Rounds(input, steps, working) && Answers(provider, steps)
    ensures r.Summarised? ==> exists c: nat :: Asked(provider, c, working) == Summary(r.text)
    ensures rounds > 0 && Asked(provider, 0, input).Summary? ==> r == Summarised(Asked(provider, 0, input).text)
    ensures ToolClosed(input) ==> (AllClosed(asked) <==> Whole(input, asked))
    ensures ToolClosed(input) && !CutsAStep(input) ==> AllClosed(asked)
    ensures Stubborn(provider) && CutsAStep(input) && rounds > 0 ==> [input[0]] in asked
    ensures r.StillGoing? ==> |steps| == rounds
    ensures rounds > RawTokens(size, input) + |input| * (bound + 1) && Bounded(size, bound, steps) ==> !r.StillGoing?
    ensures Stubborn(provider) && |input| > 1 && input[0].role == User ==> r.StillGoing?
  {
    hide Rounds, Answers, Answer, Summarisable, ToolClosed, SafeAt, StepOk, Asked, Stubborn, SummaryMessage, Bounded,
      RawTokens, RoundsSound, HasCut, OpensNothing, AllClosed, Whole;
    assert Rounds(input, [], input) && Answers(provider, []) by { NoRounds(provider, input); }
    working, steps, asked := input, [], [];
    assert RoundsSound(provider, input, steps, working, asked) by { NoRoundsSound(provider, input); }
    var calls := 0;
    for round := 0 to rounds
      invariant |steps| == round && Rounds(input, steps, working) && Answers(provider, steps)
      invariant if round == 0 then calls == 0 else !Asked(provider, 0, input).Summary?
      invariant RoundsSound(provider, input, steps, working, asked)
      invariant Stubborn(provider) && |input| > 1 && input[0].role == User ==> |working| > 1 && working[0].role == User
    {
      SoundFacts(provider, input, steps, working, asked);
      RequestsAtEnd(provider, input, steps, working, asked, []);
      ghost var before := asked;
      asked := asked + [working];
      assert asked + [] == asked;
      var whole := Asked(provider, calls, working);
      CutHasTwo(working);
      if Stubborn(provider) && |working| > 1 {
        StubbornRejects(provider, calls, working);
      }
      if whole.Summary? {
        return Summarised(whole.text), working, steps, asked;
      }
      if whole.Refused? || |working| <= 1 {
        return GaveUp, working, steps, asked;
      }
      if working[0].role == User {
        FirstIsSafe(working);
      }
      var n := SafeSplitPoint(working, |working| / 2);
      CutFound(working, n);
      if n == 0 {
        return GaveUp, working, steps, asked;
      }
      var done, text;
      ghost var more;
      done, n, text, calls, more := SummarisePrefix(provider, calls + 1, working, n);
      RequestsAtEnd(provider, input, steps, working, before, more);
      asked := asked + more;
      if !done {
        return GaveUp, working, steps, asked;
      }
      RoundIsSound(provider, input, steps, working, before, more, n, text);
      RoundAdded(provider, input, steps, working, n, text);
      StepInside(Step(working, n, text));
      SummaryIsUser(text);
      steps := steps + [Step(working, n, text)];
      working := [SummaryMessage(text)] + working[n..];
    }
    r := StillGoing;
    SoundFacts(provider, input, steps, working, asked);
    if Bounded(size, bound, steps) {
      RoundsBounded(size, bound, input, steps, working);
    }
  }

  // ----- What the rounds do to the list

  /** The messages that the rounds removed from the list. */
  function Removed(steps: seq<Step>): int {
    if steps == [] then 0 else Removed(steps[..|steps| - 1]) + steps[|steps| - 1].n - 1
  }

  /** The list never grows, and a round over two or more messages shortens it. */
  lemma {:induction false} RoundsShorten(input: seq<Message>, steps: seq<Step>, working: seq<Message>)
    requires Rounds(input, steps, working)
    ensures |working| == |input| - Removed(steps) && 0 <= Removed(steps)
    ensures (exists i :: 0 <= i < |steps| && steps[i].n > 1) ==> |working| < |input|
  {
    if steps != [] {
      var front, last := steps[..|steps| - 1], steps[|steps| - 1];
      RoundsShorten(input, front, last.list);
      if i :| 0 <= i < |steps| && steps[i].n > 1 {
        if i < |front| {
          assert front[i].n > 1;
        }
      }
    }
  }

  /** The working list is always the input, or one summary and a suffix of it. */
  lemma {:induction false} RoundsKeepSuffix(input: seq<Message>, steps: seq<Step>, working: seq<Message>) returns (k: nat)
    requires Rounds(input, steps, working) && steps != []
    ensures 0 < k <= |input| && working == [SummaryMessage(steps[|steps| - 1].text)] + input[k..]
    ensures working != [] && Tells(working[0], steps[|steps| - 1].text)
  {
    hide Tells, SafeAt;
    SummaryTells(steps[|steps| - 1].text);
    var front, last := steps[..|steps| - 1], steps[|steps| - 1];
    if front == [] {
      k := last.n;
    } else {
      var j := RoundsKeepSuffix(input, front, last.list);
      k := j + last.n - 1;
      assert last.list[last.n..] == input[k..];
    }
  }

  /** Every prefix that was summarised on the way was tool-closed if and only if
      the first one was not the open half of a step; then the rest is closed too. */
  lemma {:induction false} RoundsKeepClosed(input: seq<Message>, steps: seq<Step>, working: seq<Message>)
    requires Rounds(input, steps, working) && ToolClosed(input)
    ensures PrefixesClosed(steps) <==> steps == [] || steps[0].n > 1 || (input != [] && OpensNothing(input[0]))
    ensures PrefixesClosed(steps) ==> ToolClosed(working) && (steps != [] ==> working != [] && OpensNothing(working[0]))
  {
    hide SafeAt, ToolClosed, SummaryMessage;
    if steps != [] {
      var front, last := steps[..|steps| - 1], steps[|steps| - 1];
      RoundsKeepClosed(input, front, last.list);
      assert forall i :: 0 <= i < |front| ==> steps[i] == front[i];
      assert PrefixesClosed(steps) <==> PrefixesClosed(front) && ToolClosed(last.list[..last.n]);
      if PrefixesClosed(front) {
        FirstIsClosed(last.list);
        if last.n > 1 || OpensNothing(last.list[0]) {
          PrefixIsClosed(last.list, last.n);
          SummaryFirst(last.text, last.list[last.n..]);
        }
      }
    }
  }

  ghost predicate PrefixesClosed(steps: seq<Step>) {
    forall i :: 0 <= i < |steps| ==> steps[i].n <= |steps[i].list| && ToolClosed(steps[i].list[..steps[i].n])
  }

  /** The tokens of the summaries that stand for two or more messages. */
  function Grown(size: OutputSize, steps: seq<Step>): nat {
    if steps == [] then 0
    else
      var last := steps[|steps| - 1];
      var tokens := if last.n > 1 then RawTokens(size, [SummaryMessage(last.text)]) else 0;
      Grown(size, steps[..|steps| - 1]) + tokens
  }

  /** One round: a single message loses a token at least, a longer prefix goes and
      its summary comes. */
  lemma OneRound(size: OutputSize, s: Step)
    requires 0 < s.n <= |s.list| && (s.n == 1 ==> Shrinks(size, s))
    ensures var tokens := RawTokens(size, [SummaryMessage(s.text)]);
      if s.n == 1 then RawTokens(size, After(s)) < RawTokens(size, s.list)
      else RawTokens(size, After(s)) <= RawTokens(size, s.list) + tokens
  {
    hide PartsTokens, SummaryMessage;
    assert s.list == s.list[..s.n] + s.list[s.n..];
    RawConcat(size, s.list[..s.n], s.list[s.n..]);
    RawConcat(size, [SummaryMessage(s.text)], s.list[s.n..]);
  }

  /** There are at most as many rounds as the input has tokens, and one more for
      every message removed and every token of a summary that removed some: as long
      as the summaries of single messages are smaller than what they stand for. */
  lemma {:induction false} RoundsEnd(size: OutputSize, input: seq<Message>, steps: seq<Step>, working: seq<Message>)
    requires Rounds(input, steps, working) && forall i :: 0 <= i < |steps| && steps[i].n == 1 ==> Shrinks(size, steps[i])
    ensures |steps| + RawTokens(size, working) <= RawTokens(size, input) + Removed(steps) + Grown(size, steps)
  {
    hide SafeAt, RawTokens, SummaryMessage, Shrinks, After;
    if steps != [] {
      var front, last := steps[..|steps| - 1], steps[|steps| - 1];
      assert forall i :: 0 <= i < |front| ==> front[i] == steps[i];
      RoundsEnd(size, input, front, last.list);
      OneRound(size, last);
    }
  }

  /** Summaries of single messages are smaller than those, all others are below
      the bound. */
  ghost predicate Bounded(size: OutputSize, bound: nat, steps: seq<Step>) {
    forall i :: 0 <= i < |steps| ==>
      if steps[i].n == 1 then Shrinks(size, steps[i]) else RawTokens(size, [SummaryMessage(steps[i].text)]) <= bound
  }

  lemma OneMore(a: int, b: int, bound: nat)
    requires a < b
    ensures a * bound + bound <= b * bound
  {
    assert (a + 1) * bound <= b * bound;
  }

  lemma {:induction false} GrownBounded(
    size: OutputSize, bound: nat, input: seq<Message>, steps: seq<Step>, working: seq<Message>)
    requires Rounds(input, steps, working) && Bounded(size, bound, steps)
    ensures 0 <= Removed(steps) && Grown(size, steps) <= Removed(steps) * bound
  {
    hide SafeAt, RawTokens, SummaryMessage, StepOk, Shrinks;
    if steps != [] {
      var front, last := steps[..|steps| - 1], steps[|steps| - 1];
      assert forall i :: 0 <= i < |front| ==> front[i] == steps[i];
      GrownBounded(size, bound, input, front, last.list);
      assert steps[|steps| - 1] == last;
      StepInside(last);
      if last.n > 1 {
        OneMore(Removed(front), Removed(steps), bound);
      }
    }
  }

  lemma RoundsBounded(size: OutputSize, bound: nat, input: seq<Message>, steps: seq<Step>, working: seq<Message>)
    requires Rounds(input, steps, working) && Bounded(size, bound, steps)
    ensures |steps| <= RawTokens(size, input) + |input| * (bound + 1)
  {
    hide Rounds, Grown, RawTokens, Shrinks;
    RoundsEnd(size, input, steps, working);
    GrownBounded(size, bound, input, steps, working);
    RoundsShorten(input, steps, working);
    if Removed(steps) < |input| {
      OneMore(Removed(steps), |input|, bound);
    }
    assert |input| * (bound + 1) == |input| * bound + |input|;
  }

  /** The last resort is why the list has to begin with a user message: with
      an assistant message in front, the single message may be half a step. */
  lemma HalfAStep(user: Message, call: Message, result: Message)
    requires user.role == User && call.role == Assistant && result.role == Tool
    requires CallIds(call) != {} && AllCallIds(call) <= ResultIds(result)
    ensures var ms := [call, result, user, user];
      ToolClosed(ms) && SafeAt(ms, 2) && !SafeAt(ms, 1) && !ToolClosed(ms[..1])
  {
    var ms := [call, result, user, user];
    assert ms[..3] == [call, result, user] && ms[..2] == [call, result] && ms[..1] == [call];
    assert [call, result, user][..2] == [call, result] && [call, result][..1] == [call] && [call][..0] == [];
    CallsAreCalls(call);
    assert CallIds(call) - ResultIds(result) == {};
    assert Scan({}, [call]) == Some(CallIds(call));
    assert Scan({}, [call, result]) == Some({});
    assert Scan({}, [call, result, user]) == Some({});
    assert ms[..|ms| - 1] == [call, result, user];
    assert ResultsBetween(ms, 1, 1) == {} && ResultsBetween(ms, 1, 2) == {} + ResultIds(result);
  }

  /** And it is reached: a model that only takes one message is asked about the
      open call alone, in a history that is tool-closed as a whole. */
  method LastResortCutsAStep(provider: Summariser, user: Message, call: Message, result: Message)
    returns (done: bool, n: nat, text: string, i: nat, ghost asked: seq<seq<Message>>)
    requires user.role == User && call.role == Assistant && result.role == Tool
    requires CallIds(call) != {} && AllCallIds(call) <= ResultIds(result) && Stubborn(provider)
    ensures var messages := [call, result, user, user]; ToolClosed(messages) && CutsAStep(messages)
    ensures done && n == 1 && [call] in asked && !ToolClosed([call])
  {
    hide ToolClosed, SafeAt, Summarisable, Answer, Stubborn, AllClosed;
    var messages := [call, result, user, user];
    HalfAStep(user, call, result);
    assert messages[..1] == [call];
    done, n, text, i, asked := SummarisePrefix(provider, 0, messages, 2);
  }
}
