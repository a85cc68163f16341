/** What the executor answers about a tool call, and what is recorded of it. */
module ToolAnswers {
  import opened Messages
  import opened Text
  import opened ThreadStore
  import opened RunLog

  /** What the executor answers to Execute, Continue or Wait. */
  datatype Reply =
    | Replied(result: Part)
    | NeedsApproval(continuation: string)
    | GoesAsync(payload: string)
    | Fails(error: string)

  predicate IsResultFor(p: Part, callId: string) {
    p.ToolResultPart? && p.callId == callId
  }

  /** The answer ends the call: there is something to record. */
  predicate Spoken(r: Reply) {
    r.Replied? || r.Fails?
  }

  function SaidOf(k: Key, callId: string, r: Reply): Action
  {
    match r
    case Replied(result) => Returned(k, result)
    case Fails(error) => Raised(k, callId, error)
    case NeedsApproval(continuation) => Asks(k, callId, continuation)
    case GoesAsync(payload) => GoesOn(k, callId, payload)
  }

  /** What is heard of an answer on disk `d`. */
  function Said(k: Key, callId: string, r: Reply, d: Disk): seq<Event> {
    [Event(SaidOf(k, callId, r), d)]
  }

  function ErrorResult(callId: string, toolName: string, text: string): Part {
    ToolResultPart(callId, toolName, ErrorTextOutput(text))
  }

  /** A failure becomes an error result, its text behind `prefix`. */
  function ResultOf(callId: string, toolName: string, prefix: string, r: Reply): Part
    requires Spoken(r)
  {
    if r.Replied? then r.result else ErrorResult(callId, toolName, prefix + r.error)
  }

  lemma ResultAnswers(k: Key, callId: string, toolName: string, prefix: string, r: Reply)
    requires Spoken(r) && (r.Replied? ==> IsResultFor(r.result, callId))
    ensures Answers(SaidOf(k, callId, r), k, ResultOf(callId, toolName, prefix, r))
  {
    if r.Fails? {
      assert (prefix + r.error)[|prefix|..] == r.error;
    }
  }

  lemma ResultIsResult(callId: string, toolName: string, prefix: string, r: Reply)
    requires Spoken(r) && (r.Replied? ==> IsResultFor(r.result, callId))
    ensures IsResultFor(ResultOf(callId, toolName, prefix, r), callId)
  {
  }

  /** From `start` on the executor was asked to run the call. */
  ghost predicate RanSince(log: seq<Event>, start: nat, k: Key, callId: string) {
    exists n :: start <= n < |log| && RunsCall(log[n].action, k, callId)
  }

  /** From `start` on the executor handed back a result or an error of the call. */
  ghost predicate HeardSince(log: seq<Event>, start: nat, k: Key, callId: string) {
    exists n :: start <= n < |log| && SpeaksOf(log[n].action, k, callId)
  }

  predicate SpeaksOf(a: Action, k: Key, callId: string) {
    match a
    case Returned(key, result) => key == k && IsResultFor(result, callId)
    case Raised(key, id, _) => key == k && id == callId
    case _ => false
  }

  lemma SinceGrows(log: seq<Event>, longer: seq<Event>, start: nat, later: nat, k: Key, callId: string)
    requires log <= longer && start <= later
    ensures RanSince(log, later, k, callId) ==> RanSince(longer, start, k, callId)
    ensures HeardSince(log, later, k, callId) ==> HeardSince(longer, start, k, callId)
  {
    if n :| later <= n < |log| && RunsCall(log[n].action, k, callId) {
      assert longer[n] == log[n];
    }
    if n :| later <= n < |log| && SpeaksOf(log[n].action, k, callId) {
      assert longer[n] == log[n];
    }
  }

  /** From `start` on the executor asked a question about the call. */
  ghost predicate AskedSince(log: seq<Event>, start: nat, k: Key, callId: string, continuation: string) {
    exists n :: start <= n < |log| && log[n].action == Asks(k, callId, continuation)
  }

  lemma AskedNow(log: seq<Event>, longer: seq<Event>, start: nat, k: Key, callId: string, r: Reply, d: Disk)
    requires r.NeedsApproval? && start <= |log| && log + Said(k, callId, r, d) <= longer
    ensures AskedSince(longer, start, k, callId, r.continuation)
  {
    assert longer[|log|] == (log + Said(k, callId, r, d))[|log|];
  }

  lemma AskedStays(log: seq<Event>, longer: seq<Event>, start: nat, later: nat, k: Key, callId: string, continuation: string)
    requires log <= longer && start <= later && AskedSince(log, later, k, callId, continuation)
    ensures AskedSince(longer, start, k, callId, continuation)
  {
    var n :| later <= n < |log| && log[n].action == Asks(k, callId, continuation);
    assert longer[n] == log[n];
  }

  ghost predicate AllRan(log: seq<Event>, start: nat, k: Key, calls: set<string>) {
    forall c :: c in calls ==> RanSince(log, start, k, c)
  }

  ghost predicate AllHeard(log: seq<Event>, start: nat, k: Key, calls: set<string>) {
    forall c :: c in calls ==> HeardSince(log, start, k, c)
  }

  lemma AllRanGrows(log: seq<Event>, longer: seq<Event>, start: nat, later: nat, k: Key, calls: set<string>)
    requires log <= longer && start <= later && AllRan(log, later, k, calls)
    ensures AllRan(longer, start, k, calls)
  {
    hide RanSince, HeardSince;
    forall c | c in calls
      ensures RanSince(longer, start, k, c)
    {
      SinceGrows(log, longer, start, later, k, c);
    }
  }

  lemma AllRanUnion(log: seq<Event>, longer: seq<Event>, start: nat, k: Key, calls: set<string>, more: set<string>)
    requires log <= longer && start <= |log| && AllRan(log, start, k, calls) && AllRan(longer, |log|, k, more)
    ensures AllRan(longer, start, k, calls + more)
  {
    AllRanGrows(log, longer, start, start, k, calls);
    AllRanGrows(longer, longer, start, |log|, k, more);
  }

  /** The executor was asked to run the call, and that is the first new event. */
  lemma RanNow(log: seq<Event>, longer: seq<Event>, k: Key, call: Part, said: seq<Event>, d: Disk)
    requires call.ToolCallPart? && log + [Event(Executed(k, call), d)] + said <= longer
    ensures AllRan(longer, |log|, k, {call.callId})
  {
    assert longer[|log|] == (log + [Event(Executed(k, call), d)] + said)[|log|];
    assert RunsCall(longer[|log|].action, k, call.callId);
  }

  /** The executor's answer about the call was heard, and that is the first new event. */
  lemma HeardNow(log: seq<Event>, longer: seq<Event>, k: Key, callId: string, r: Reply, d: Disk)
    requires Spoken(r) && (r.Replied? ==> IsResultFor(r.result, callId))
    requires log + Said(k, callId, r, d) <= longer
    ensures AllHeard(longer, |log|, k, {callId})
  {
    var n := |log|;
    assert longer[n] == (log + Said(k, callId, r, d))[n];
    assert SpeaksOf(longer[n].action, k, callId);
  }

  lemma OneMoreHeard(
    log: seq<Event>, longer: seq<Event>, start: nat, k: Key, calls: set<string>, more: set<string>)
    requires log <= longer && start <= |log| && AllHeard(log, start, k, calls)
    requires more == {} || AllHeard(longer, |log|, k, more)
    ensures AllHeard(longer, start, k, calls) && AllHeard(longer, start, k, calls + more)
  {
    hide HeardSince;
    forall c | c in calls + more
      ensures HeardSince(longer, start, k, c)
    {
      SinceGrows(log, longer, start, start, k, c);
      SinceGrows(longer, longer, start, |log|, k, c);
    }
  }

  /** The loop's own errors. */
  lemma LoopErrors(callId: string, toolName: string)
    ensures OwnError(ErrorResult(callId, toolName, INTERRUPTED)) && OwnError(ErrorResult(callId, toolName, CANCELLED))
  {
  }

  // ----- The reminder in the last allowed step

  function Digits(n: nat): string {
    var last := ["0123456789"[n % 10]];
    if n < 10 then last else Digits(n / 10) + last
  }

  /** FormatMaxStepsReminder */
  function MaxStepsReminder(maxSteps: nat): Reminder {
    "<system-reminder>" + StepsAreUsedUp(maxSteps)
  }

  function StepsAreUsedUp(maxSteps: nat): string {
    "\nThe maximum number of agent steps (" + Digits(maxSteps) + ") has been reached. Do not call any more tools. "
    + "Provide the best final answer you can from the work completed so far, "
    + "clearly noting any uncertainty or unfinished work.\n</system-reminder>"
  }

  /** The result of `callId` completes the last step that is allowed; 0 allows any
      number of steps. */
  predicate CompletesLast(maxSteps: nat, step: nat, callId: string, all: map<string, Part>, total: nat) {
    0 < maxSteps <= step + 1 && 0 < total <= |all.Keys + {callId}|
  }

  /** prepareToolResultForAppend; `reminder` is MaxStepsReminder for the number of
      steps that the turn was loaded with. */
  function Prepared(maxSteps: nat, reminder: Reminder, step: nat, result: Part, all: map<string, Part>, total: nat): (p: Part)
    requires result.ToolResultPart?
    ensures IsResultFor(p, result.callId)
  {
    if CompletesLast(maxSteps, step, result.callId, all, total) then Reminded(result, reminder) else result
  }

  lemma PreparedCarries(maxSteps: nat, reminder: Reminder, step: nat, result: Part, all: map<string, Part>, total: nat)
    requires result.ToolResultPart?
    ensures var p := Prepared(maxSteps, reminder, step, result, all, total); Carries(p, result)
  {
    hide Contains, TrimSpace;
  }

  /** The reminder changes a result exactly when its text does not have it yet. */
  lemma RemindedChanges(p: Part, reminder: Reminder)
    requires p.ToolResultPart?
    ensures Reminded(p, reminder) == p <==> Contains(OutputText(p.output), reminder)
  {
    hide Contains, TrimSpace;
    var text := OutputText(p.output);
    var kept := if TrimSpace(text) == "" then "Tool completed." else text;
    if !Contains(text, reminder) && Reminded(p, reminder) == p {
      assert text == (kept + "\n\n") + reminder + "";
      ContainsInside(kept + "\n\n", reminder, "");
    }
  }

  /** The model reads the reminder, and before it what the tool said. */
  lemma ReminderIsRead(p: Part, reminder: Reminder)
    requires p.ToolResultPart?
    ensures var said, read := OutputText(p.output), OutputText(Reminded(p, reminder).output);
      Contains(read, reminder) && (TrimSpace(said) != "" ==> said <= read)
  {
    hide Contains, TrimSpace;
    var said := OutputText(p.output);
    if !Contains(said, reminder) {
      var kept := if TrimSpace(said) == "" then "Tool completed." else said;
      ContainsInside(kept + "\n\n", reminder, "");
      assert OutputText(Reminded(p, reminder).output) == (kept + "\n\n") + reminder + "";
    }
  }

  /** So what a tool answered is recorded as it is if and only if the step is not the
      last one allowed, or other calls are open, or the answer has the reminder. */
  lemma RecordedAsAnsweredExactly(
    maxSteps: nat, reminder: Reminder, step: nat, result: Part, all: map<string, Part>, total: nat)
    requires result.ToolResultPart?
    ensures Prepared(maxSteps, reminder, step, result, all, total) == result <==>
      || !CompletesLast(maxSteps, step, result.callId, all, total)
      || Contains(OutputText(result.output), reminder)
  {
    hide Contains, TrimSpace;
    RemindedChanges(result, reminder);
  }

  /** And a failure or a denial stays one under the same condition: the reminder
      turns any output into plain text. */
  lemma FailureStaysExactly(maxSteps: nat, reminder: Reminder, step: nat, result: Part, all: map<string, Part>, total: nat)
    requires result.ToolResultPart? && !result.output.TextOutput?
    ensures !Prepared(maxSteps, reminder, step, result, all, total).output.TextOutput? <==>
      || !CompletesLast(maxSteps, step, result.callId, all, total)
      || Contains(OutputText(result.output), reminder)
  {
    hide Contains, TrimSpace;
  }

  /** With one step allowed, the only call of the step failed: it is recorded as a
      success. */
  lemma LastFailureReadsAsSuccess()
    ensures Prepared(1, MaxStepsReminder(1), 0, ErrorResult("c", "read", "no such file"), map[], 1).output.TextOutput?
  {
    hide Contains, TrimSpace, MaxStepsReminder;
    if Contains("no such file", MaxStepsReminder(1)) {
      var i := ContainedAt("no such file", MaxStepsReminder(1));
    }
    assert CompletesLast(1, 0, "c", map[], 1);
  }
}
