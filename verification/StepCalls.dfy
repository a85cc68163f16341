/** The tool calls of one step while the loop works on them: live handles, questions,
    the async index, and which calls are dealt with. */
module StepCalls {
  import opened Messages
  import opened ToolClosure
  import opened ThreadStore
  import opened RunLog
  import opened StepWork
  import opened ToolAnswers

  datatype Handle = Handle(callId: string, toolName: string, payload: string)

  datatype Pause = Pause(callId: string, continuation: string)

  /** A tool that asks without a continuation of its own keeps the one it has. */
  function PauseOf(callId: string, payload: string, r: Reply): Pause
    requires r.NeedsApproval?
  {
    Pause(callId, if r.continuation == "" then payload else r.continuation)
  }

  /** From `start` on the executor asked the question about one of the handles. */
  ghost predicate AsksFor(hs: seq<Handle>, p: Pause, log: seq<Event>, start: nat, k: Key) {
    exists i, c :: (
      && 0 <= i < |hs| && AskedSince(log, start, k, hs[i].callId, c)
      && p == PauseOf(hs[i].callId, hs[i].payload, NeedsApproval(c)))
  }

  ghost predicate PauseKnown(hs: seq<Handle>, pause: Option<Pause>, log: seq<Event>, start: nat, k: Key) {
    pause.Some? ==> AsksFor(hs, pause.value, log, start, k)
  }

  lemma PauseStays(
    was: Option<Pause>, pause: Option<Pause>, rest: seq<Handle>, pending: seq<Handle>, log: seq<Event>, longer: seq<Event>,
    start: nat, k: Key)
    requires log <= longer && start <= |log| && PauseKnown(pending, was, log, start, k)
    requires forall h :: h in rest ==> h in pending
    requires if was.Some? then pause == was else PauseKnown(rest, pause, longer, |log|, k)
    ensures PauseKnown(pending, pause, longer, start, k)
  {
    hide AsksFor;
    if was.Some? {
      MoreAsk(pending, pending, was.value, log, longer, start, start, k);
    } else if pause.Some? {
      MoreAsk(rest, pending, pause.value, longer, longer, start, |log|, k);
    }
  }

  lemma OneAsks(hs: seq<Handle>, i: nat, r: Reply, log: seq<Event>, longer: seq<Event>, k: Key, d: Disk)
    requires i < |hs| && r.NeedsApproval? && log + Said(k, hs[i].callId, r, d) <= longer
    ensures AsksFor(hs, PauseOf(hs[i].callId, hs[i].payload, r), longer, |log|, k)
  {
    AskedNow(log, longer, |log|, k, hs[i].callId, r, d);
    assert r == NeedsApproval(r.continuation);
  }

  lemma MoreAsk(
    hs: seq<Handle>, all: seq<Handle>, p: Pause, log: seq<Event>, longer: seq<Event>, start: nat, later: nat, k: Key)
    requires (forall h :: h in hs ==> h in all) && log <= longer && start <= later && AsksFor(hs, p, log, later, k)
    ensures AsksFor(all, p, longer, start, k)
  {
    hide AskedSince;
    var i, c :| 0 <= i < |hs| && AskedSince(log, later, k, hs[i].callId, c)
      && p == PauseOf(hs[i].callId, hs[i].payload, NeedsApproval(c));
    assert hs[i] in all;
    var j :| 0 <= j < |all| && all[j] == hs[i];
    AskedStays(log, longer, start, later, k, hs[i].callId, c);
  }

  /** The turn waits for the answer to the question of `p`. */
  ghost predicate PausedOn(d: Disk, ts: TurnState, p: Pause, phase: ResumePhase) {
    var ask := AskKey(ts.id, ts.pending);
    ask in d.questions && d.questions[ask] == Question(p.callId, ts.step, phase, p.continuation)
  }

  function HandleIds(hs: seq<Handle>): set<string> {
    set h | h in hs :: h.callId
  }

  ghost predicate DistinctHandles(hs: seq<Handle>) {
    forall i, j :: 0 <= i < j < |hs| ==> hs[i].callId != hs[j].callId
  }

  /** Each handle waits for another open call of the step. */
  ghost predicate HandlesOpen(d: Disk, k: Key, hs: seq<Handle>)
    requires k in d.results
  {
    DistinctHandles(hs) && HandleIds(hs) <= Unresolved(d, k)
  }

  /** Handles that can be waited for: of open calls, or of the one call that was
      continued without its ID. */
  ghost predicate Awaitable(d: Disk, k: Key, hs: seq<Handle>)
    requires k in d.results
  {
    HandlesOpen(d, k, hs) || (|hs| == 1 && OpenCall(d, k, hs[0].callId))
  }

  /** Async work without a call of the step has ended. */
  ghost predicate StrayAnswered(d: Disk, k: Key)
    requires k in d.results
  {
    forall i :: 0 <= i < |AsyncOf(d, k)| ==> AsyncOf(d, k)[i].callId in CallIds(StepMessage(d, k)) + Answered(d, k)
  }

  /** The waiting phase may begin: with live handles, or with an async index to
      rebuild them from. */
  ghost predicate HandlesReady(d: Disk, k: Key, hs: seq<Handle>)
    requires k in d.results
  {
    Awaitable(d, k, hs) && (hs == [] ==> StrayAnswered(d, k))
  }

  lemma HandleTaken(hs: seq<Handle>, i: nat)
    requires i < |hs|
    ensures var rest := hs[..i] + hs[i + 1..];
      && HandleIds(hs) == HandleIds(rest) + {hs[i].callId}
      && (DistinctHandles(hs) ==> DistinctHandles(rest) && hs[i].callId !in HandleIds(rest))
  {
    var rest := hs[..i] + hs[i + 1..];
    forall h
      ensures h in hs <==> h in rest || h == hs[i]
    {
      if h in hs {
        var j :| 0 <= j < |hs| && hs[j] == h;
        if j < i {
          assert rest[j] == h;
        } else if j > i {
          assert rest[j - 1] == h;
        }
      }
    }
    if DistinctHandles(hs) {
      forall j | 0 <= j < |rest|
        ensures rest[j].callId != hs[i].callId
      {
        assert rest[j] == hs[if j < i then j else j + 1];
      }
    }
  }

  lemma HandleAdded(hs: seq<Handle>, h: Handle)
    ensures HandleIds(hs + [h]) == HandleIds(hs) + {h.callId}
    ensures DistinctHandles(hs) && h.callId !in HandleIds(hs) ==> DistinctHandles(hs + [h])
  {
    var longer := hs + [h];
    assert forall x :: x in longer <==> x in hs || x == h;
    if DistinctHandles(hs) && h.callId !in HandleIds(hs) {
      assert forall i :: 0 <= i < |hs| ==> longer[i] in hs;
    }
  }

  /** An open call that none of the handles waits for. */
  ghost predicate StillOpen(d: Disk, k: Key, callId: string, hs: seq<Handle>)
    requires k in d.results
  {
    || (callId in Unresolved(d, k) && callId !in HandleIds(hs))
    || (OpenCall(d, k, callId) && hs == [])
  }

  /** One handle is taken out of those waited for: what it stands for is open,
      and nothing else waits for it. */
  lemma TakenAwaitable(d: Disk, k: Key, hs: seq<Handle>, i: nat)
    requires k in d.results && Awaitable(d, k, hs) && i < |hs|
    ensures var rest := hs[..i] + hs[i + 1..];
      && Unresolved(d, k) != {} && Awaitable(d, k, rest)
      && StillOpen(d, k, hs[i].callId, rest)
      && forall asked :: StillOpen(d, k, asked, hs) ==> StillOpen(d, k, asked, rest)
  {
    hide StepMessage, Answered, CallIds;
    HandleTaken(hs, i);
  }

  /** The call that the handle stood for got its result. */
  lemma TakenAnswered(d: Disk, d': Disk, k: Key, hs: seq<Handle>, i: nat)
    requires k in d.results && Awaitable(d, k, hs) && i < |hs|
    requires k in d'.results && StepMessage(d', k) == StepMessage(d, k)
    requires Answered(d', k) == Answered(d, k) + {hs[i].callId}
    ensures var rest := hs[..i] + hs[i + 1..];
      && Awaitable(d', k, rest)
      && forall asked :: StillOpen(d, k, asked, hs) ==> StillOpen(d', k, asked, rest)
  {
    hide StepMessage, Answered, CallIds;
    HandleTaken(hs, i);
  }

  lemma StillOpenIsOpen(d: Disk, k: Key, callId: string, hs: seq<Handle>)
    requires k in d.results && StillOpen(d, k, callId, hs)
    ensures OpenCall(d, k, callId)
  {
  }

  /** One call went from neither answered nor waited for to one of the two. */
  ghost predicate OneMore(
    answered: set<string>, hs: seq<Handle>, answered': set<string>, hs': seq<Handle>, callId: string)
  {
    || (hs' == hs && answered' == answered + {callId})
    || (|hs'| == |hs| + 1 && hs <= hs' && hs'[|hs|].callId == callId && answered' == answered)
  }

  /** The tools phase ended: on to the next step, or waiting with every open
      call of the step covered by a live handle. */
  ghost predicate ToolsPhaseLeft(
    d: Disk, k: Key, ts': TurnState, ids: seq<string>, calm: bool, hs: seq<Handle>)
  {
    || AtNextStep(d, k, ts', ids, calm)
    || (&& AtStep(d, ts', ids, calm) && d.turn == Some(ts') && ts'.phase == WaitingForAsync
        && StepKey(ts') == k && hs != []
        && Unresolved(d, k) <= HandleIds(hs)
        && (calm ==> HandlesOpen(d, k, hs)))
  }

  /** The answered turn is back in a working phase of its step. */
  ghost predicate BackAtWork(
    d: Disk, k: Key, ts': TurnState, ids: seq<string>, calm: bool, hs: seq<Handle>)
  {
    && AtStep(d, ts', ids, calm) && d.turn == Some(ts') && StepKey(ts') == k
    && (ts'.phase == Tools || ts'.phase == WaitingForAsync)
    && (calm ==> HandlesReady(d, k, hs))
  }

  /** In an undisturbed run the call that asked is found again by its ID, unless
      the step result records no calls at all. */
  lemma AskedCallIsRecorded(d: Disk, ts: TurnState, ids: seq<string>, callId: string)
    requires AtStep(d, ts, ids, true) && OpenCall(d, StepKey(ts), callId)
    ensures var r := d.results[StepKey(ts)];
      if r.calls == [] then !Records(r, callId) && OpenCall(d, StepKey(ts), "")
      else Records(r, callId) && callId in Unresolved(d, StepKey(ts))
  {
    hide Consistent, ChainPending, FutureClean, AsyncKnown, ChildrenQuiet, Savable, Answered;
    var r := d.results[StepKey(ts)];
    if r.calls != [] {
      CallIdsAreCalls(StepMessage(d, StepKey(ts)));
      var calls := ExecutorCalls(r.assistant.parts);
      var i :| 0 <= i < |calls| && calls[i].callId == callId;
      assert r.calls[i].callId == callId;
    }
  }

  /** The turn was cancelled at work on a step; undisturbed, every call of it
      got a result. */
  ghost predicate StepCancelled(d: Disk, ts: TurnState, ids: seq<string>, calm: bool) {
    AtStep(d, ts, ids, calm) && ts.phase == Tools && (calm ==> Unresolved(d, StepKey(ts)) == {})
  }

  /** What happens to a call that the tools phase comes to. */
  datatype Fate = Skips | Resumes | Marks | Runs

  function FateOf(callId: string, answered: set<string>, continued: set<string>, resumed: bool, markedOne: bool): Fate {
    if callId in answered then Skips
    else if callId in continued then Resumes
    else if resumed && !markedOne then Marks
    else Runs
  }

  /** What the phase found in the async index and, once calls `begun` their async
      work, a continuation of the last of these. */
  ghost predicate LastAdded(cs: seq<Continuation>, found: seq<Continuation>, begun: seq<string>) {
    if begun == [] then cs == found
    else |cs| == |found| + 1 && found <= cs && cs[|found|].callId == begun[|begun| - 1]
  }

  ghost predicate Listed(cs: seq<Continuation>, callId: string) {
    exists i :: 0 <= i < |cs| && cs[i].callId == callId
  }

  /** The disk with `cs` as the async index of step `k`. */
  function WithAsync(d: Disk, k: Key, cs: seq<Continuation>): Disk {
    d.(async := d.async[k := cs])
  }

  lemma OneBegun(d: Disk, k: Key, found: seq<Continuation>, c: Continuation)
    ensures LastAdded(AsyncOf(WithAsync(d, k, found + [c]), k), found, [c.callId])
  {
  }

  lemma ListedIsResumable(d: Disk, k: Key, at: Continuation)
    requires CurrentStep(d, k) && at in AsyncOf(d, k)
    ensures Resumable(d, k, at.callId, at.payload, at.input)
  {
  }

  lemma FoundStays(cs: seq<Continuation>, found: seq<Continuation>, begun: seq<string>)
    requires LastAdded(cs, found, begun)
    ensures forall at :: at in found ==> at in cs
  {
  }

  lemma NotListed(found: seq<Continuation>, existing: set<string>, begun: seq<string>)
    requires forall i :: 0 <= i < |found| ==> found[i].callId in existing
    requires forall c :: c in begun ==> c !in existing
    ensures forall c :: c in begun ==> !Listed(found, c)
  {
  }

  lemma OneMoreBegun(cs: seq<Continuation>, found: seq<Continuation>, begun: seq<string>, more: seq<string>)
    ensures more != [] && LastAdded(cs, found, more) ==> LastAdded(cs, found, begun + more)
    ensures more == [] ==> begun + more == begun
  {
  }

  /** So every call that began async work in the phase has its continuation on disk
      if and only if there was just one such call. */
  lemma AllListedExactly(cs: seq<Continuation>, found: seq<Continuation>, begun: seq<string>)
    requires LastAdded(cs, found, begun) && forall c :: c in begun ==> !Listed(found, c)
    ensures (forall c :: c in begun ==> Listed(cs, c)) <==> forall c :: c in begun ==> c == begun[|begun| - 1]
  {
    if begun != [] {
      var last := begun[|begun| - 1];
      assert cs[|found|].callId == last && Listed(cs, last);
      assert forall i :: 0 <= i < |found| ==> cs[i] == found[i];
      assert forall c :: c in begun && Listed(cs, c) ==> c == last;
    }
  }

  /** Where the waiting is: the calls of `heard` have their results, those of `asked`
      asked questions, the first of which is `pause`. */
  ghost predicate Waited(
    pending: seq<Handle>, rest: seq<Handle>, heard: set<string>, asked: set<string>, pause: Option<Pause>,
    log: seq<Event>, start: nat, k: Key)
  {
    && HandleIds(rest) + heard <= HandleIds(pending) && HandleIds(pending) <= HandleIds(rest) + heard + asked
    && (forall h :: h in rest ==> h in pending) && AllHeard(log, start, k, heard) && PauseKnown(pending, pause, log, start, k)
    && if pause.None? then asked == {} else pause.value.callId in HandleIds(pending)
  }

  lemma WaitStarts(pending: seq<Handle>, log: seq<Event>, k: Key)
    ensures Waited(pending, pending, {}, {}, None, log, |log|, k)
  {
  }

  lemma WaitGoesOn(
    pending: seq<Handle>, rest: seq<Handle>, i: nat, heard: set<string>, asked: set<string>, was: Option<Pause>,
    pause: Option<Pause>, log: seq<Event>, longer: seq<Event>, start: nat, k: Key, heardNow: bool)
    returns (heard': set<string>, asked': set<string>)
    requires Waited(pending, rest, heard, asked, was, log, start, k) && i < |rest| && log <= longer && start <= |log|
    requires heardNow ==> AllHeard(longer, |log|, k, {rest[i].callId})
    requires if heardNow || was.Some? then pause == was else pause.Some? && pause.value.callId == rest[i].callId
    requires was.None? ==> PauseKnown(rest, pause, longer, |log|, k)
    ensures Waited(pending, rest[..i] + rest[i + 1..], heard', asked', pause, longer, start, k)
    ensures heard' == heard + if heardNow then {rest[i].callId} else {}
  {
    hide AllHeard, PauseKnown, HandleIds;
    HandleTaken(rest, i);
    var one := {rest[i].callId};
    PauseStays(was, pause, rest, pending, log, longer, start, k);
    OneMoreHeard(log, longer, start, k, heard, if heardNow then one else {});
    heard', asked' := heard + (if heardNow then one else {}), asked + if heardNow then {} else one;
  }

  lemma WaitEnds(
    pending: seq<Handle>, heard: set<string>, asked: set<string>, pause: Option<Pause>, log: seq<Event>, start: nat, k: Key)
    requires Waited(pending, [], heard, asked, pause, log, start, k)
    ensures AllHeard(log, start, k, heard) && PauseKnown(pending, pause, log, start, k) && heard <= HandleIds(pending)
    ensures if pause.None? then heard == HandleIds(pending) else pause.value.callId in HandleIds(pending)
  {
  }

  lemma OneMoreCovers(
    answered: set<string>, hs: seq<Handle>, answered': set<string>, hs': seq<Handle>, callId: string)
    requires OneMore(answered, hs, answered', hs', callId)
    ensures answered <= answered' <= answered + {callId} && HandleIds(hs) <= HandleIds(hs') <= HandleIds(hs) + {callId}
    ensures callId in answered' || callId in HandleIds(hs')
    ensures DistinctHandles(hs) && callId !in HandleIds(hs) ==> DistinctHandles(hs')
    ensures callId !in HandleIds(hs) && HandleIds(hs) !! answered && callId !in answered ==> HandleIds(hs') !! answered'
  {
    if hs' != hs {
      assert hs' == hs + [hs'[|hs|]];
      HandleAdded(hs, hs'[|hs|]);
    }
  }

  function IdsOfCalls(calls: seq<Part>): (ids: seq<string>)
    requires forall i :: 0 <= i < |calls| ==> calls[i].ToolCallPart?
    ensures |ids| == |calls| && forall i :: 0 <= i < |calls| ==> ids[i] == calls[i].callId
  {
    seq(|calls|, i requires 0 <= i < |calls| && calls[i].ToolCallPart? => calls[i].callId)
  }

  function IdsOfContinuations(cs: seq<Continuation>): (ids: seq<string>)
    ensures |ids| == |cs| && forall i :: 0 <= i < |cs| ==> ids[i] == cs[i].callId
  {
    seq(|cs|, i requires 0 <= i < |cs| => cs[i].callId)
  }

  /** The first `i` of the calls `ids` are answered or handled, and no other call is
      handled. */
  ghost predicate DealtWith(ids: seq<string>, i: nat, answered: set<string>, handled: set<string>) {
    && (forall j :: 0 <= j < i && j < |ids| ==> ids[j] in answered + handled)
    && (forall c :: c in handled ==> exists j :: 0 <= j < i && j < |ids| && ids[j] == c)
  }

  lemma NoneDealtWith(ids: seq<string>, answered: set<string>)
    ensures DealtWith(ids, 0, answered, HandleIds([]))
  {
  }

  lemma OneMoreDealtWith(
    ids: seq<string>, i: nat, answered: set<string>, handled: set<string>, answered': set<string>, handled': set<string>)
    requires DealtWith(ids, i, answered, handled) && i < |ids|
    requires answered <= answered' && handled <= handled' <= handled + {ids[i]} && ids[i] in answered' + handled'
    ensures DealtWith(ids, i + 1, answered', handled')
  {
    forall c | c in handled'
      ensures exists j :: 0 <= j < i + 1 && j < |ids| && ids[j] == c
    {
      if c in handled {
        var j :| 0 <= j < i && j < |ids| && ids[j] == c;
      } else {
        assert ids[i] == c;
      }
    }
  }

  lemma NextIsNew(ids: seq<string>, i: nat, answered: set<string>, handled: set<string>)
    requires DealtWith(ids, i, answered, handled) && i < |ids| && forall a, b :: 0 <= a < b < |ids| ==> ids[a] != ids[b]
    ensures ids[i] !in handled
  {
  }

  lemma AllDealtWith(ids: seq<string>, answered: set<string>, handled: set<string>)
    requires DealtWith(ids, |ids|, answered, handled)
    ensures forall i :: 0 <= i < |ids| ==> ids[i] in answered + handled
  {
  }

  /** What the loop over the calls did: the calls that began async work, that were
      run, and the one that was marked as interrupted. */
  datatype Tally = Tally(begun: seq<string>, ran: set<string>, marked: set<string>)

  /** What the loop over the calls found. */
  datatype Found = Found(completed: set<string>, continued: set<string>, continuations: seq<Continuation>)

  function Tallied(t: Tally, more: seq<string>, callId: string, fate: Fate): Tally {
    Tally(t.begun + more, t.ran + if fate == Runs then {callId} else {}, t.marked + if fate == Marks then {callId} else {})
  }

  /** Each call that is dealt with had a result or a continuation before, or was run
      since, or is the one that was marked as interrupted after a restart. */
  ghost predicate Accounted(log: seq<Event>, start: nat, k: Key, found: Found, t: Tally, covered: set<string>) {
    && AllRan(log, start, k, t.ran) && |t.marked| <= 1 && (found.completed == {} ==> t.marked == {})
    && covered <= found.completed + found.continued + t.ran + t.marked
  }

  /** The async index holds what was found and the last that began since. */
  ghost predicate Begun(found: Found, t: Tally, cs: seq<Continuation>, handled: set<string>) {
    LastAdded(cs, found.continuations, t.begun) && forall c :: c in t.begun ==> c in handled && c !in found.continued
  }

  lemma StartTally(log: seq<Event>, k: Key, found: Found)
    ensures var t := Tally([], {}, {});
      && Accounted(log, |log|, k, found, t, found.completed + HandleIds([]))
      && Begun(found, t, found.continuations, HandleIds([]))
  {
  }

  lemma TallyAccounted(
    log: seq<Event>, longer: seq<Event>, start: nat, k: Key, found: Found, t: Tally, answered: set<string>, handled: set<string>,
    more: seq<string>, callId: string, answered': set<string>, handled': set<string>)
    requires log <= longer && start <= |log| && Accounted(log, start, k, found, t, answered + handled)
    requires answered' + handled' <= answered + handled + {callId}
    requires FateOf(callId, answered, found.continued, found.completed != {}, t.marked != {}) == Runs ==>
      AllRan(longer, |log|, k, {callId})
    ensures var fate := FateOf(callId, answered, found.continued, found.completed != {}, t.marked != {});
      Accounted(longer, start, k, found, Tallied(t, more, callId, fate), answered' + handled')
  {
    hide AllRan;
    var fate := FateOf(callId, answered, found.continued, found.completed != {}, t.marked != {});
    if fate == Runs {
      AllRanUnion(log, longer, start, k, t.ran, {callId});
    } else {
      AllRanGrows(log, longer, start, start, k, t.ran);
      assert t.ran + {} == t.ran;
    }
    TallyCovers(found, t, answered, handled, more, callId, answered' + handled');
  }

  lemma TallyCovers(
    found: Found, t: Tally, answered: set<string>, handled: set<string>, more: seq<string>, callId: string, covered: set<string>)
    requires |t.marked| <= 1 && (found.completed == {} ==> t.marked == {})
    requires answered + handled <= found.completed + found.continued + t.ran + t.marked
    requires covered <= answered + handled + {callId}
    ensures var t' := Tallied(t, more, callId, FateOf(callId, answered, found.continued, found.completed != {}, t.marked != {}));
      && |t'.marked| <= 1 && (found.completed == {} ==> t'.marked == {})
      && covered <= found.completed + found.continued + t'.ran + t'.marked
  {
    if t.marked == {} {
      assert t.marked + {callId} == {callId};
    }
    assert t.marked + {} == t.marked;
  }

  lemma TallyBegun(
    found: Found, t: Tally, cs: seq<Continuation>, handled: set<string>, more: seq<string>, callId: string, fate: Fate,
    cs': seq<Continuation>, handled': set<string>)
    requires Begun(found, t, cs, handled) && handled <= handled'
    requires more == [] ==> cs' == cs
    requires more != [] ==>
      more == [callId] && LastAdded(cs', found.continuations, more) && callId in handled' && callId !in found.continued
    ensures Begun(found, Tallied(t, more, callId, fate), cs', handled')
  {
    hide LastAdded;
    OneMoreBegun(cs', found.continuations, t.begun, more);
  }

  /** Where the loop over the calls `ids` of step `k` is after `i` of them. */
  ghost predicate Progress(
    ids: seq<string>, i: nat, found: Found, t: Tally, markedOne: bool, log: seq<Event>, start: nat, k: Key,
    answered: set<string>, handled: set<string>, cs: seq<Continuation>)
  {
    && DealtWith(ids, i, answered, handled) && Begun(found, t, cs, handled)
    && Accounted(log, start, k, found, t, answered + handled) && (markedOne <==> t.marked != {})
  }

  lemma ProgressStarts(ids: seq<string>, found: Found, log: seq<Event>, k: Key)
    ensures Progress(
      ids, 0, found, Tally([], {}, {}), false, log, |log|, k, found.completed, HandleIds([]), found.continuations)
  {
    hide HandleIds, AllRan;
    StartTally(log, k, found);
    NoneDealtWith(ids, found.completed);
  }

  lemma ProgressGoesOn(
    ids: seq<string>, i: nat, found: Found, t: Tally, markedOne: bool, log: seq<Event>, start: nat, k: Key,
    answered: set<string>, handled: set<string>, cs: seq<Continuation>,
    more: seq<string>, markedOne': bool, longer: seq<Event>, answered': set<string>, handled': set<string>, cs': seq<Continuation>)
    returns (t': Tally)
    requires i < |ids| && Progress(ids, i, found, t, markedOne, log, start, k, answered, handled, cs)
    requires start <= |log| && log <= longer
    requires answered <= answered' <= answered + {ids[i]} && handled <= handled' <= handled + {ids[i]}
    requires ids[i] in answered' || ids[i] in handled'
    requires more == [] ==> cs' == cs
    requires more != [] ==>
      more == [ids[i]] && LastAdded(cs', found.continuations, more) && ids[i] in handled' && ids[i] !in found.continued
    requires var fate := FateOf(ids[i], answered, found.continued, found.completed != {}, markedOne);
      (fate == Runs ==> AllRan(longer, |log|, k, {ids[i]})) && (markedOne' <==> markedOne || fate == Marks)
    ensures Progress(ids, i + 1, found, t', markedOne', longer, start, k, answered', handled', cs')
  {
    hide AllRan, LastAdded, Accounted, Begun, DealtWith, Tallied;
    var fate := FateOf(ids[i], answered, found.continued, found.completed != {}, markedOne);
    t' := Tallied(t, more, ids[i], fate);
    TallyAccounted(log, longer, start, k, found, t, answered, handled, more, ids[i], answered', handled');
    TallyBegun(found, t, cs, handled, more, ids[i], fate, cs', handled');
    TallyMarks(t, more, ids[i], fate);
    OneMoreDealtWith(ids, i, answered, handled, answered', handled');
  }

  lemma ProgressFacts(
    ids: seq<string>, i: nat, found: Found, t: Tally, markedOne: bool, log: seq<Event>, start: nat, k: Key,
    answered: set<string>, handled: set<string>, cs: seq<Continuation>)
    requires Progress(ids, i, found, t, markedOne, log, start, k, answered, handled, cs)
    ensures i < |ids| && (forall a, b :: 0 <= a < b < |ids| ==> ids[a] != ids[b]) ==> ids[i] !in handled
    ensures i == |ids| ==> forall c :: c in ids ==> c in answered + handled
    ensures Accounted(log, start, k, found, t, answered + handled) && forall at :: at in found.continuations ==> at in cs
    ensures (forall j :: 0 <= j < |found.continuations| ==> found.continuations[j].callId in found.continued) ==>
      && LastAdded(cs, found.continuations, t.begun)
      && forall c :: c in t.begun ==> c in handled && !Listed(found.continuations, c)
  {
    hide LastAdded, Accounted, Listed;
    FoundStays(cs, found.continuations, t.begun);
    if forall j :: 0 <= j < |found.continuations| ==> found.continuations[j].callId in found.continued {
      BegunNotListed(found, t, cs, handled);
    }
  }

  lemma TallyMarks(t: Tally, more: seq<string>, callId: string, fate: Fate)
    ensures Tallied(t, more, callId, fate).marked != {} <==> t.marked != {} || fate == Marks
  {
    assert fate == Marks ==> callId in Tallied(t, more, callId, fate).marked;
  }

  lemma BegunNotListed(found: Found, t: Tally, cs: seq<Continuation>, handled: set<string>)
    requires Begun(found, t, cs, handled)
    requires forall i :: 0 <= i < |found.continuations| ==> found.continuations[i].callId in found.continued
    ensures LastAdded(cs, found.continuations, t.begun)
    ensures forall c :: c in t.begun ==> c in handled && !Listed(found.continuations, c)
  {
    hide LastAdded;
    NotListed(found.continuations, found.continued, t.begun);
  }

  lemma KnownAreDistinct(cs: seq<Continuation>, calls: set<string>)
    requires KnownContinuations(cs, calls)
    ensures var ids := IdsOfContinuations(cs); forall a, b :: 0 <= a < b < |ids| ==> ids[a] != ids[b]
  {
  }

  lemma CallIsExecutable(d: Disk, k: Key, call: Part)
    requires CurrentStep(d, k) && k in d.results && call in ExecutorCalls(StepMessage(d, k).parts)
    ensures Executable(d, k, call)
  {
  }

  lemma CallsAreDistinct(m: Message)
    requires DistinctCalls(m)
    ensures var ids := IdsOfCalls(ExecutorCalls(m.parts)); forall a, b :: 0 <= a < b < |ids| ==> ids[a] != ids[b]
  {
  }

  /** Handles of open calls stay handles of open calls when one more call of
      the step is dealt with. */
  lemma HandlesStayOpen(d: Disk, d': Disk, k: Key, hs: seq<Handle>, hs': seq<Handle>, callId: string)
    requires k in d.results && k in d'.results && StepMessage(d', k) == StepMessage(d, k)
    requires OneMore(Answered(d, k), hs, Answered(d', k), hs', callId)
    requires HandlesOpen(d, k, hs) && callId in Unresolved(d, k) && callId !in HandleIds(hs)
    ensures HandlesOpen(d', k, hs')
  {
    hide StepMessage, Answered, CallIds;
    OneMoreCovers(Answered(d, k), hs, Answered(d', k), hs', callId);
    assert HandleIds(hs) !! Answered(d, k);
  }

  /** One of the calls `ids` was taken up again, and ended or goes on. */
  lemma OneTakenUp(d: Disk, d': Disk, k: Key, ids: seq<string>, i: nat, hs: seq<Handle>, hs': seq<Handle>)
    requires k in d.results && k in d'.results && StepMessage(d', k) == StepMessage(d, k) && i < |ids|
    requires OneMore(Answered(d, k), hs, Answered(d', k), hs', ids[i]) && DealtWith(ids, i, Answered(d, k), HandleIds(hs))
    ensures DealtWith(ids, i + 1, Answered(d', k), HandleIds(hs')) && Answered(d, k) <= Answered(d', k)
    ensures HandlesOpen(d, k, hs) && ids[i] in Unresolved(d, k) && (forall a, b :: 0 <= a < b < |ids| ==> ids[a] != ids[b]) ==>
      HandlesOpen(d', k, hs')
  {
    hide Answered, StepMessage, CallIds, HandlesOpen, DealtWith, Unresolved, HandleIds, OneMore;
    OneMoreCovers(Answered(d, k), hs, Answered(d', k), hs', ids[i]);
    OneMoreDealtWith(ids, i, Answered(d, k), HandleIds(hs), Answered(d', k), HandleIds(hs'));
    if HandlesOpen(d, k, hs) && ids[i] in Unresolved(d, k) && forall a, b :: 0 <= a < b < |ids| ==> ids[a] != ids[b] {
      NextIsNew(ids, i, Answered(d, k), HandleIds(hs));
      HandlesStayOpen(d, d', k, hs, hs', ids[i]);
    }
  }

  lemma NoHandles(d: Disk, k: Key)
    requires k in d.results
    ensures HandlesOpen(d, k, []) && HandleIds([]) == {}
    ensures StrayAnswered(d, k) ==> HandlesReady(d, k, [])
  {
  }

  lemma OneHandleReady(d: Disk, d': Disk, k: Key, hs: seq<Handle>)
    requires k in d.results && d'.results == d.results && |hs| == 1 && OpenCall(d, k, hs[0].callId)
    requires StepMessage(d', k) == StepMessage(d, k) && Answered(d', k) == Answered(d, k)
    ensures HandlesReady(d', k, hs)
  {
    hide StepMessage, Answered, CallIds;
  }

  lemma OpenIsKnown(d: Disk, k: Key, callId: string)
    requires k in d.results && OpenCall(d, k, callId)
    ensures callId in KnownIds(d, k)
  {
    hide StepMessage, Answered, CallIds;
  }

  lemma OpenIsAwaitable(d: Disk, k: Key, hs: seq<Handle>)
    requires k in d.results
    ensures HandlesOpen(d, k, hs) ==> Awaitable(d, k, hs)
  {
  }

  lemma ReadyFacts(d: Disk, k: Key, hs: seq<Handle>)
    requires k in d.results && HandlesReady(d, k, hs)
    ensures Awaitable(d, k, hs)
    ensures hs == [] ==> forall i :: 0 <= i < |AsyncOf(d, k)| ==>
      AsyncOf(d, k)[i].callId in CallIds(StepMessage(d, k)) + Answered(d, k)
  {
  }

  lemma StepMessageSaved(d: Disk, k: Key)
    requires k in d.results && d.results[k].assistantId in d.messages
    ensures StepMessage(d, k) == d.messages[d.results[k].assistantId].msg
  {
  }

  lemma CallIdsAreCalls(m: Message)
    ensures var calls := ExecutorCalls(m.parts);
      && (forall i :: 0 <= i < |calls| ==> calls[i].callId in CallIds(m))
      && (forall c :: c in CallIds(m) ==> exists i :: 0 <= i < |calls| && calls[i].callId == c)
  {
    var calls := ExecutorCalls(m.parts);
    forall i | 0 <= i < |calls|
      ensures calls[i].callId in CallIds(m)
    {
      assert calls[i] in calls;
    }
    forall c | c in CallIds(m)
      ensures exists i :: 0 <= i < |calls| && calls[i].callId == c
    {
      var p :| p in m.parts && IsExecutorCall(p) && p.callId == c;
      assert p in calls;
    }
  }

  function AddResults(found: map<string, Part>, parts: seq<Part>): map<string, Part> {
    if parts == [] then found
    else
      var before, last := AddResults(found, parts[..|parts| - 1]), parts[|parts| - 1];
      if last.ToolResultPart? then before[last.callId := last] else before
  }

  /** The results that the listed messages hold; the last one for a call wins. */
  function EventResults(m: map<string, Stored>, ids: seq<string>): map<string, Part> {
    if ids == [] then map[]
    else
      var before, last := EventResults(m, ids[..|ids| - 1]), ids[|ids| - 1];
      if last in m then AddResults(before, m[last].msg.parts) else before
  }

  lemma {:induction false} AddResultsKeys(found: map<string, Part>, parts: seq<Part>)
    requires forall c :: c in found ==> IsResultFor(found[c], c)
    ensures AddResults(found, parts).Keys == found.Keys + PartResultIds(parts)
    ensures forall c :: c in AddResults(found, parts) ==> IsResultFor(AddResults(found, parts)[c], c)
  {
    if parts != [] {
      var front, last := parts[..|parts| - 1], parts[|parts| - 1];
      assert parts == front + [last];
      AddResultsKeys(found, front);
    }
  }

  lemma {:induction false} EventResultsKeys(m: map<string, Stored>, ids: seq<string>)
    ensures EventResults(m, ids).Keys == AnsweredBy(m, ids)
    ensures forall c :: c in EventResults(m, ids) ==> IsResultFor(EventResults(m, ids)[c], c)
  {
    if ids != [] {
      var front, last := ids[..|ids| - 1], ids[|ids| - 1];
      EventResultsKeys(m, front);
      if last in m {
        AddResultsKeys(EventResults(m, front), m[last].msg.parts);
      }
    }
  }

  lemma NoEventResults(m: map<string, Stored>)
    ensures EventResults(m, []) == map[]
  {
  }

  lemma NextEventResults(m: map<string, Stored>, ids: seq<string>, i: nat)
    requires i < |ids| && ids[i] in m
    ensures EventResults(m, ids[..i + 1]) == AddResults(EventResults(m, ids[..i]), m[ids[i]].msg.parts)
  {
    assert ids[..i + 1][..i] == ids[..i];
  }

  /** loadCompletedToolResultsFromStepEvents */
  method LoadCompletedToolResults(d: Disk, k: Key) returns (results: map<string, Part>)
    requires Consistent(d)
    ensures results == EventResults(d.messages, EventsOf(d, k)) && results.Keys == Answered(d, k)
    ensures forall c :: c in results ==> IsResultFor(results[c], c)
  {
    results := map[];
    var ids := EventsOf(d, k);
    EventsExist(d, k);
    hide Consistent, AddResults, AnsweredBy, IsResultFor, EventResults;
    assert ids[..0] == [];
    NoEventResults(d.messages);
    for i := 0 to |ids|
      invariant results == EventResults(d.messages, ids[..i])
    {
      assert ids[i] in ids;
      NextEventResults(d.messages, ids, i);
      results := CollectResults(results, d.messages[ids[i]].msg.parts);
    }
    assert ids[..|ids|] == ids;
    EventResultsKeys(d.messages, ids);
  }

  method CollectResults(found: map<string, Part>, parts: seq<Part>) returns (results: map<string, Part>)
    ensures results == AddResults(found, parts)
  {
    results := found;
    for j := 0 to |parts|
      invariant results == AddResults(found, parts[..j])
    {
      assert parts[..j + 1][..j] == parts[..j];
      if parts[j].ToolResultPart? {
        results := results[parts[j].callId := parts[j]];
      }
    }
    assert parts[..|parts|] == parts;
  }

  method IndexContinuations(cs: seq<Continuation>) returns (byId: map<string, Continuation>)
    ensures forall i :: 0 <= i < |cs| ==> cs[i].callId in byId
    ensures forall c :: c in byId ==> byId[c].callId == c && byId[c] in cs
  {
    byId := map[];
    for i := 0 to |cs|
      invariant forall j :: 0 <= j < i ==> cs[j].callId in byId
      invariant forall c :: c in byId ==> byId[c].callId == c && byId[c] in cs
    {
      byId := byId[cs[i].callId := cs[i]];
    }
  }

  function CallInfoOf(p: Part): CallInfo
    requires p.ToolCallPart?
  {
    CallInfo(p.callId, p.toolName, p.input)
  }

  method ToCallInfos(calls: seq<Part>) returns (infos: seq<CallInfo>)
    requires forall i :: 0 <= i < |calls| ==> calls[i].ToolCallPart?
    ensures |infos| == |calls| && forall i :: 0 <= i < |calls| ==> infos[i] == CallInfoOf(calls[i])
  {
    infos := [];
    for i := 0 to |calls|
      invariant |infos| == i && forall j :: 0 <= j < i ==> infos[j] == CallInfoOf(calls[j])
    {
      infos := infos + [CallInfoOf(calls[i])];
    }
  }

  /** The recorded call with the given ID, or an empty one. */
  method FindCall(calls: seq<CallInfo>, callId: string) returns (call: CallInfo)
    ensures (exists i :: 0 <= i < |calls| && calls[i].callId == callId) ==>
      exists i :: 0 <= i < |calls| && calls[i] == call && call.callId == callId && forall j :: 0 <= j < i ==> calls[j].callId != callId
    ensures (forall i :: 0 <= i < |calls| ==> calls[i].callId != callId) ==> call == CallInfo("", "", "")
  {
    call := CallInfo("", "", "");
    for i := 0 to |calls|
      invariant forall j :: 0 <= j < i ==> calls[j].callId != callId
      invariant call == CallInfo("", "", "")
    {
      if calls[i].callId == callId {
        return calls[i];
      }
    }
  }

  /** The first continuation of the call is `i`, or there is none and `i` is the
      end; it was replaced in place or appended. */
  predicate UpsertedAt(cs: seq<Continuation>, call: CallInfo, payload: string, updated: seq<Continuation>, i: nat) {
    && i <= |cs| && (forall j :: 0 <= j < i ==> cs[j].callId != call.callId)
    && if i < |cs|
       then cs[i].callId == call.callId
            && updated == cs[i := Continuation(call.callId, cs[i].toolName, payload, call.input)]
       else updated == cs + [Continuation(call.callId, call.toolName, payload, call.input)]
  }

  /** Replaces the continuation of the call in place, or appends a new one. */
  method UpsertContinuation(cs: seq<Continuation>, call: CallInfo, payload: string) returns (updated: seq<Continuation>)
    ensures exists i: nat :: UpsertedAt(cs, call, payload, updated, i)
    ensures forall known :: KnownContinuations(cs, known) && call.callId in known ==> KnownContinuations(updated, known)
  {
    for i := 0 to |cs|
      invariant forall j :: 0 <= j < i ==> cs[j].callId != call.callId
    {
      if cs[i].callId == call.callId {
        updated := cs[i := Continuation(call.callId, cs[i].toolName, payload, call.input)];
        assert UpsertedAt(cs, call, payload, updated, i);
        return;
      }
    }
    updated := cs + [Continuation(call.callId, call.toolName, payload, call.input)];
    assert UpsertedAt(cs, call, payload, updated, |cs|);
  }
}
