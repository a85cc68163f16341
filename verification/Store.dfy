/** The store object: every method is one atomic write, and any write may fail
    or be the last thing the process does. */
module Store {
  import opened Messages
  import opened ToolClosure
  import opened Accumulator
  import opened Text
  import opened ThreadStore
  import opened RunLog

  /** `Exists` is ErrMessageExists, `Failed` any other error return, and `Died`
      the end of the process at this write. */
  datatype Outcome = Written | Exists | Failed | Died

  ghost predicate TurnsIn(log: seq<Event>, turns: set<string>) {
    forall j :: 0 <= j < |log| && log[j].disk.turn.Some? ==> log[j].disk.turn.value.id in turns
  }

  /** Per-step files belong to turns that were on disk. */
  ghost predicate KeysIn(d: Disk, turns: set<string>) {
    forall k :: k in d.results || k in d.events || k in d.async ==> k.turn in turns
  }

  /** Approval IDs are issued IDs, never the empty one. */
  ghost predicate QuestionsNamed(d: Disk, issued: set<string>) {
    forall q :: q in d.questions ==> q.approvalId in issued && q.approvalId != ""
  }

  ghost function TurnId(d: Disk): set<string> {
    if d.turn.Some? then {d.turn.value.id} else {}
  }

  lemma EventAdded(log: seq<Event>, turns: set<string>, e: Event)
    requires LegalRun(log) && log != [] && LegalEvent(log, e) && Accounts(log, e)
    requires Consistent(e.disk) && TurnsIn(log, turns)
    requires SameTurn(log[|log| - 1].disk, e.disk) || forall id :: id in TurnId(e.disk) ==> id !in turns
    ensures var longer := log + [e];
      && LegalRun(longer) && TurnsIn(longer, turns + TurnId(e.disk))
      && longer[|longer| - 1] == e && log <= longer
      && (Calm(longer) <==> Calm(log) && !Disturbs(e))
      && (StartsClosed(log) && (e.action.Started? && Calm(log) ==> ClosedAt(e.disk, e.action.leaf)) ==>
            StartsClosed(longer))
  {
    hide LegalRun, LegalEvent, Accounts, Consistent, Disturbs, StartsClosed, ClosedAt;
    var longer := log + [e];
    if StartsClosed(log) && (e.action.Started? && Calm(log) ==> ClosedAt(e.disk, e.action.leaf)) {
      StartsClosedSnoc(log, e);
    }
    LegalRunSnoc(log, e);
    assert longer[|log|] == e;
    assert forall i :: 0 <= i < |log| ==> longer[i] == log[i];
  }

  /** Nothing that the executor handed back is still to be recorded. */
  ghost predicate Settled(log: seq<Event>) {
    var n := |log|;
    n > 0 && !Speaks(log[n - 1].action) && !(n >= 2 && Speaks(log[n - 2].action) && log[n - 1].action == Wrote)
  }

  /** The executor just handed back what `msg` records. */
  ghost predicate OwesMessage(log: seq<Event>, k: Key, msg: Message) {
    log != [] && exists p, result ::
      Answers(log[|log| - 1].action, k, result) && Carries(p, result) && msg == Plain(Tool, [p])
  }

  /** The message that records it was just saved as `id`. */
  ghost predicate OwesListing(log: seq<Event>, k: Key, id: string) {
    var n := |log|;
    && n >= 2 && log[n - 1].action == Wrote && id in log[n - 1].disk.messages && id !in log[n - 2].disk.messages
    && OwesMessage(log[..n - 1], k, log[n - 1].disk.messages[id].msg)
  }

  /** What the loop may list by itself in step `k`. */
  ghost predicate OwnPart(d: Disk, k: Key, p: Part) {
    p.ToolResultPart? ==>
      OwnDenial(p) || (p.callId !in Answered(d, k) && exists own :: OwnError(own) && Carries(p, own))
  }

  ghost predicate OwnParts(d: Disk, k: Key, parts: seq<Part>) {
    forall p :: p in parts ==> OwnPart(d, k, p)
  }

  lemma OwnPartsKept(d: Disk, d': Disk, k: Key, parts: seq<Part>)
    requires Answered(d', k) == Answered(d, k)
    ensures OwnParts(d', k, parts) <==> OwnParts(d, k, parts)
  {
    hide Answered, Carries;
    assert forall p :: OwnPart(d', k, p) <==> OwnPart(d, k, p);
  }

  lemma CarriesCall(p: Part, result: Part)
    requires Carries(p, result)
    ensures p.ToolResultPart? && p.callId == result.callId && p.toolName == result.toolName
  {
  }

  lemma OwingIsUnsettled(log: seq<Event>, k: Key, msg: Message, id: string)
    requires OwesMessage(log, k, msg) || OwesListing(log, k, id)
    ensures !Settled(log)
  {
    if OwesListing(log, k, id) {
      assert log[..|log| - 1][|log| - 2] == log[|log| - 2];
    }
  }

  lemma SettledAccounts(log: seq<Event>, e: Event)
    requires Settled(log) && (e.action != Wrote || e.disk.events == log[|log| - 1].disk.events)
    ensures Accounts(log, e)
  {
  }

  lemma InterruptAccounts(log: seq<Event>, d: Disk)
    requires log != []
    ensures Accounts(log, Event(Interrupted, d))
    ensures |log| >= 2 && Speaks(log[|log| - 1].action) && log[|log| - 2].action.Continued? ==>
      Accounts(log, Event(Errored, d))
  {
  }

  lemma OwedMessageAccounts(log: seq<Event>, k: Key, id: string, stored: Stored)
    requires OwesMessage(log, k, stored.msg) && id !in log[|log| - 1].disk.messages && stored.replacesId == ""
    ensures var d := log[|log| - 1].disk; var d' := d.(messages := d.messages[id := stored]);
      Accounts(log, Event(Wrote, d')) && OwesListing(log + [Event(Wrote, d')], k, id)
  {
    hide Carries;
    var n, d := |log|, log[|log| - 1].disk;
    var d' := d.(messages := d.messages[id := stored]);
    assert (log + [Event(Wrote, d')])[..n] == log;
    var p, result :| Answers(log[n - 1].action, k, result) && Carries(p, result) && stored.msg == Plain(Tool, [p]);
    assert SavesAnswerOf(log[n - 1].action, d, d') by {
      assert stored == Stored(stored.parent, "", Plain(Tool, [p]));
    }
    if n >= 2 && Speaks(log[n - 2].action) {
      assert log[n - 1].action != Wrote;
    }
  }

  lemma OwedListingAccounts(log: seq<Event>, k: Key, id: string)
    requires OwesListing(log, k, id)
    ensures var d := log[|log| - 1].disk; Accounts(log, Event(Wrote, d.(events := d.events[k := EventsOf(d, k) + [id]])))
  {
    hide Carries;
    var n, d := |log|, log[|log| - 1].disk;
    var front := log[..n - 1];
    assert front[n - 2] == log[n - 2];
    var p, result :| Answers(front[n - 2].action, k, result) && Carries(p, result) && d.messages[id].msg == Plain(Tool, [p]);
    assert Warranted(log, d, k, p) by { assert Answers(log[n - 2].action, k, result) && Carries(p, result); }
    assert forall q :: q in [p] ==> q == p;
    assert ListsSaved(log[n - 2].disk, k, d, d.(events := d.events[k := EventsOf(d, k) + [id]]));
  }

  lemma OwnListingAccounts(log: seq<Event>, k: Key, id: string)
    requires Settled(log) && id in log[|log| - 1].disk.messages
    requires OwnParts(log[|log| - 1].disk, k, log[|log| - 1].disk.messages[id].msg.parts)
    ensures var d := log[|log| - 1].disk; Accounts(log, Event(Wrote, d.(events := d.events[k := EventsOf(d, k) + [id]])))
  {
    hide Carries, Answers;
  }

  lemma ListedIsSettled(log: seq<Event>, k: Key, id: string, longer: seq<Event>)
    requires Settled(log) || OwesListing(log, k, id)
    requires |longer| == |log| + 1 && longer[..|log|] == log && longer[|log|].action == Wrote
    ensures Settled(longer)
  {
    assert longer[|log| - 1] == log[|log| - 1];
  }

  lemma MessageWriteLegal(d: Disk, id: string, stored: Stored)
    requires Consistent(d) && id != "" && id !in d.messages
    requires stored.parent == "" || stored.parent in d.messages
    ensures var d' := d.(messages := d.messages[id := stored]); LegalWrite(d, d') && RecordsNew(d, d') && Consistent(d')
  {
    hide Grounded, TurnMoves;
    GroundedExtended(d.messages, id, stored);
    StepStays(d, d.(messages := d.messages[id := stored]));
  }

  /** A write that leaves the turn record alone moves no turn. */
  lemma StepStays(d: Disk, d': Disk)
    requires d'.turn == d.turn
    ensures SameTurn(d, d') ==> TurnMoves(d', d.turn.value, d'.turn.value)
  {
  }

  lemma KeptAlready(m: map<string, Stored>)
    ensures MessagesKept(m, m)
  {
  }

  lemma ResultWriteLegal(d: Disk, k: Key, r: StepResult)
    requires Consistent(d) && (r.assistantId == "" || r.assistantId in d.messages) && r.assistant.role == Assistant
    requires if k in d.results then ResultKept(d.results[k], r) && NamedRightly(d, k, r) else r.assistantId == ""
    ensures var d' := d.(results := d.results[k := r]);
      LegalWrite(d, d') && Consistent(d') && (k in d.results || CallsMatch(r) ==> RecordsNew(d, d'))
  {
    hide Grounded, TurnMoves, MessagesKept, CallsMatch, Consistent, ChildFree, MayName;
    KeptAlready(d.messages);
    StepStays(d, d.(results := d.results[k := r]));
    ResultKeepsConsistent(d, k, r);
  }

  /** The write fills in no message ID, or one that may be filled in. */
  ghost predicate NamedRightly(d: Disk, k: Key, r: StepResult)
    requires k in d.results
  {
    r.assistantId == d.results[k].assistantId || d.results[k].assistantId != "" || MayName(d, k, r.assistantId)
  }

  lemma ResultKeepsConsistent(d: Disk, k: Key, r: StepResult)
    requires Consistent(d) && (r.assistantId == "" || r.assistantId in d.messages) && r.assistant.role == Assistant
    requires k in d.results ==> ResultKept(d.results[k], r)
    ensures Consistent(d.(results := d.results[k := r]))
  {
    hide Grounded;
    assert d.turn.Some? ==> TurnConsistent(d.(results := d.results[k := r]), d.turn.value);
  }

  lemma QuestionWriteLegal(d: Disk, q: AskKey, question: Question)
    requires Consistent(d) && q !in d.questions
    ensures var d' := d.(questions := d.questions[q := question]);
      LegalWrite(d, d') && RecordsNew(d, d') && Consistent(d')
  {
    hide Grounded, TurnMoves, MessagesKept, ChildFree;
    KeptAlready(d.messages);
    StepStays(d, d.(questions := d.questions[q := question]));
  }

  lemma AnswerWriteLegal(d: Disk, q: AskKey, answer: string)
    requires Consistent(d) && q in d.questions
    ensures var d' := d.(answers := d.answers[q := answer]);
      LegalWrite(d, d') && RecordsNew(d, d') && Consistent(d')
  {
    hide Grounded, MessagesKept, ChildFree;
    KeptAlready(d.messages);
  }

  lemma TurnWriteLegal(d: Disk, t: TurnState)
    requires Consistent(d) && TurnConsistent(d, t)
    requires d.turn.Some? && d.turn.value.id == t.id ==> TurnMoves(d, d.turn.value, t)
    ensures var d' := d.(turn := Some(t)); LegalWrite(d, d') && RecordsNew(d, d') && Consistent(d')
  {
    hide Grounded, MessagesKept, ChildFree;
    KeptAlready(d.messages);
    if d.turn.Some? {
      RecordDoesNotMatter(d, Some(t), Key(t.id, d.turn.value.step));
    }
  }

  lemma RecordDoesNotMatter(d: Disk, t: Option<TurnState>, k: Key)
    ensures AllAnswered(d.(turn := t), k) <==> AllAnswered(d, k)
  {
  }

  /** Step files and the async index are of no concern to the turn record. */
  lemma AsideLegal(d: Disk, d': Disk)
    requires Consistent(d) && d' == d.(async := d'.async, chunks := d'.chunks)
    ensures LegalWrite(d, d') && RecordsNew(d, d') && Consistent(d')
  {
    hide Grounded;
    KeptAlready(d.messages);
    StepStays(d, d');
  }

  /** One more saved message is listed. */
  lemma EventWriteLegal(d: Disk, k: Key, id: string)
    requires Consistent(d) && id in d.messages && ChildFree(d.messages, id)
    requires d.turn.Some? ==> id != d.turn.value.leaf
    ensures var d' := d.(events := d.events[k := EventsOf(d, k) + [id]]);
      LegalWrite(d, d') && RecordsNew(d, d') && Consistent(d')
  {
    hide Grounded, TurnMoves, MessagesKept, ChildFree;
    KeptAlready(d.messages);
    StepStays(d, d.(events := d.events[k := EventsOf(d, k) + [id]]));
  }

  class ThreadDir {
    /** The caller starts turns only where an undisturbed one ended. */
    ghost const closedStarts: bool
    var disk: Disk
    /** The IDs drawn or used so far: what a random ID will not hit again. */
    var issued: set<string>
    /** Everything that happened to this directory. */
    ghost var log: seq<Event>
    /** The turns that were ever on disk. */
    ghost var turns: set<string>

    /** Whatever the loop does, what the executor hands back is recorded first. */
    ghost predicate Valid()
      reads this
    {
      Sound() && Settled(log)
    }

    ghost predicate Sound()
      reads this
    {
      && LegalRun(log) && log != [] && log[|log| - 1].disk == disk
      && Consistent(disk)
      && disk.messages.Keys <= issued && turns <= issued
      && QuestionsNamed(disk, issued)
      && TurnId(disk) <= turns && TurnsIn(log, turns) && KeysIn(disk, turns)
      && (closedStarts ==> StartsClosed(log))
    }

    ghost predicate IsCalm()
      reads this
    {
      Calm(log)
    }

    /** `msg` has to be saved now, or `id` to be listed. */
    ghost predicate Owes(k: Key, msg: Message)
      reads this
    {
      Sound() && OwesMessage(log, k, msg)
    }

    ghost predicate Awaits(k: Key, id: string)
      reads this
    {
      Sound() && OwesListing(log, k, id)
    }

    /** The executor just handed something back of a tool that was continued. */
    ghost predicate Continuing()
      reads this
    {
      Sound() && |log| >= 2 && Speaks(log[|log| - 1].action) && log[|log| - 2].action.Continued?
    }

    /** `result` stands for what the executor just handed back, or it is an error of
        the loop's own for a call without a result. */
    ghost predicate MayRecord(k: Key, result: Part)
      reads this
    {
      && result.ToolResultPart?
      && ((Sound() && Answers(log[|log| - 1].action, k, result))
          || (Valid() && OwnError(result) && result.callId !in Answered(disk, k)))
    }

    lemma RecordedAsItIs(k: Key, result: Part, p: Part)
      requires MayRecord(k, result) && Carries(p, result)
      ensures Owes(k, Plain(Tool, [p])) || (Valid() && OwnParts(disk, k, [p]))
    {
      hide LegalRun, Consistent, Answers, Carries, Answered;
      CarriesCall(p, result);
      assert forall q :: q in [p] ==> q == p;
    }

    lemma DiskConsistent()
      requires Valid() || Sound()
      ensures Consistent(disk)
    {
    }

    lemma DiskFacts()
      requires Valid() || Sound()
      ensures Consistent(disk) && KeysIn(disk, turns) && disk.messages.Keys <= issued && turns <= issued
      ensures QuestionsNamed(disk, issued) && TurnId(disk) <= turns
      ensures log != [] && log[|log| - 1].disk == disk
    {
    }

    lemma DiskGrounded()
      requires Valid() || Sound()
      ensures Grounded(disk.messages)
    {
    }

    lemma TurnIsKnown()
      requires (Valid() || Sound()) && disk.turn.Some?
      ensures disk.turn.value.id in turns
    {
    }

    lemma AnswersAreToQuestions()
      requires Valid() || Sound()
      ensures disk.answers.Keys <= disk.questions.Keys
    {
    }

    lemma LogEndsHere()
      requires Valid() && IsCalm()
      ensures log != [] && log[|log| - 1].disk == disk && Calm(log)
    {
    }

    /** The state after a write of `d`, which took place only if `o` says so. */
    twostate predicate Did(o: Outcome, d: Disk)
      reads this
    {
      && Sound() && (old(Settled(log)) || o != Written ==> Settled(log)) && old(issued) <= issued && old(turns) <= turns
      && (o == Written || o == Failed || o == Died)
      && disk == (if o == Written then d else old(disk))
      && (IsCalm() ==> old(IsCalm()) && o == Written)
      && old(log) <= log
    }

    constructor (ghost closedStarts: bool)
      ensures Valid() && IsCalm() && disk == EMPTY && this.closedStarts == closedStarts
    {
      this.closedStarts := closedStarts;
      disk, issued, log, turns := EMPTY, {}, [Event(Begin, EMPTY)], {};
    }

    /** generateID */
    method FreshId() returns (id: string)
      requires Valid() || Sound()
      modifies this`issued
      ensures old(Valid()) ==> Valid()
      ensures forall k, msg :: old(Owes(k, msg)) ==> Owes(k, msg)
      ensures id != "" && id !in old(issued) && issued == old(issued) + {id}
      ensures IsCalm() == old(IsCalm())
    {
      hide LegalRun, Consistent, TurnsIn, Settled, OwesMessage, StartsClosed;
      id := NewString(issued);
      issued := issued + {id};
    }

    /** An oracle call or an interruption: the disk stays as it is. */
    ghost method Note(action: Action)
      requires Valid() && LegalEvent(log, Event(action, disk)) && !action.Begin? && !action.Wrote? && !Speaks(action)
      requires closedStarts && action.Started? && IsCalm() ==> ClosedAt(disk, action.leaf)
      modifies this`log
      ensures Valid() && log == old(log) + [Event(action, disk)]
      ensures IsCalm() <==> old(IsCalm()) && !Disturbs(Event(action, disk))
    {
      hide LegalRun, LegalEvent, Accounts, Consistent, Disturbs, StartsClosed, ClosedAt, Calm;
      SettledAccounts(log, Event(action, disk));
      EventAdded(log, turns, Event(action, disk));
      log := log + [Event(action, disk)];
    }

    /** The executor asks a question about a call, or lets it go on by itself. */
    ghost method HearMore(action: Action)
      requires Valid() && (action.Asks? || action.GoesOn?)
      modifies this`log
      ensures Valid() && log == old(log) + [Event(action, disk)] && IsCalm() == old(IsCalm())
    {
      hide LegalRun, Consistent, Disturbs, StartsClosed, ClosedAt, Calm, Settled;
      StaysCalm(action);
      Note(action);
    }

    /** What the executor hands back of a call. */
    ghost method Hear(action: Action)
      requires Valid() && Speaks(action) && (action.Returned? ==> action.result.ToolResultPart?)
      modifies this`log
      ensures Sound() && log == old(log) + [Event(action, disk)] && IsCalm() == old(IsCalm())
    {
      hide LegalRun, Accounts, Consistent, Disturbs, StartsClosed, ClosedAt, Calm;
      StaysCalm(action);
      SettledAccounts(log, Event(action, disk));
      EventAdded(log, turns, Event(action, disk));
      log := log + [Event(action, disk)];
    }

    method Commit(d: Disk, ghost action: Action) returns (o: Outcome)
      requires Sound() && LegalEvent(log, Event(action, d)) && Accounts(log, Event(action, d))
      requires (action.Wrote? || action.Rebuilt?) && Consistent(d)
      requires KeysIn(d, turns) && d.messages.Keys <= issued && QuestionsNamed(d, issued)
      requires d.turn.Some? && !SameTurn(disk, d) ==> d.turn.value.id in issued && d.turn.value.id !in turns
      modifies this`disk, this`log, this`turns
      ensures Did(o, d)
      ensures o == Written ==> log == old(log) + [Event(action, d)]
      ensures turns == if o == Written then old(turns) + TurnId(d) else old(turns)
    {
      hide LegalRun, Consistent, LegalEvent, Accounts, TurnsIn, Calm, StartsClosed, ClosedAt;
      o := *;
      if o != Written {
        o := if o == Died then Died else Failed;
        Interrupt();
        return;
      }
      EventAdded(log, turns, Event(action, d));
      disk, log, turns := d, log + [Event(action, d)], turns + TurnId(d);
    }

    /** The end of a process, or of a write that failed. */
    ghost method Interrupt()
      requires Valid() || Sound()
      modifies this`log
      ensures Valid() && !IsCalm() && old(log) <= log
    {
      hide LegalRun, Accounts, Consistent, StartsClosed, ClosedAt, Calm;
      InterruptAccounts(log, disk);
      EventAdded(log, turns, Event(Interrupted, disk));
      log := log + [Event(Interrupted, disk)];
    }

    /** An error that stops the turn with every write done. */
    ghost method Fail()
      requires Valid() || Continuing()
      modifies this`log
      ensures Valid() && old(log) <= log && IsCalm() == old(IsCalm())
    {
      hide LegalRun, Accounts, Consistent, StartsClosed, ClosedAt, Calm, Disturbs;
      StaysCalm(Errored);
      if Valid() {
        SettledAccounts(log, Event(Errored, disk));
      } else {
        InterruptAccounts(log, disk);
      }
      EventAdded(log, turns, Event(Errored, disk));
      log := log + [Event(Errored, disk)];
    }

    lemma StaysCalm(action: Action)
      requires Sound() && (action.Errored? || Speaks(action) || action.Asks? || action.GoesOn?)
      ensures IsCalm() ==> !Disturbs(Event(action, disk))
    {
      assert Calm(log) ==> !Disturbs(log[|log| - 1]);
    }

    /** Messages are write-once. */
    method SaveMessage(id: string, stored: Stored) returns (o: Outcome)
      requires Valid() || (exists k :: Owes(k, stored.msg) && id !in disk.messages && stored.replacesId == "")
      requires id != "" && (stored.parent == "" || stored.parent in disk.messages)
      modifies this
      ensures old(Valid()) || o != Written ==> Valid()
      ensures forall k :: old(Owes(k, stored.msg)) && o == Written ==> Awaits(k, id)
      ensures turns == old(turns)
      ensures o == Exists <==> id in old(disk.messages)
      ensures o == Exists ==> disk == old(disk) && issued == old(issued) && log == old(log) && IsCalm() == old(IsCalm())
      ensures o != Exists ==> Did(o, old(disk).(messages := old(disk.messages)[id := stored]))
    {
      hide LegalRun, Consistent, LegalWrite, TurnsIn, Accounts, OwesMessage, OwesListing;
      if id in disk.messages {
        return Exists;
      }
      ghost var d := disk.(messages := disk.messages[id := stored]);
      issued := issued + {id};
      MessageWriteLegal(disk, id, stored);
      if Settled(log) {
        forall k | OwesMessage(log, k, stored.msg)
          ensures false
        {
          OwingIsUnsettled(log, k, stored.msg, id);
        }
        SettledAccounts(log, Event(Wrote, d));
      } else {
        var k :| OwesMessage(log, k, stored.msg);
        OwedMessageAccounts(log, k, id, stored);
      }
      forall k | OwesMessage(log, k, stored.msg) && !Settled(log)
        ensures OwesListing(log + [Event(Wrote, d)], k, id)
      {
        OwedMessageAccounts(log, k, id, stored);
      }
      o := Commit(disk.(messages := disk.messages[id := stored]), Wrote);
    }

    method SaveStepResult(k: Key, r: StepResult) returns (o: Outcome)
      requires Valid() && k.turn in turns
      requires (r.assistantId == "" || r.assistantId in disk.messages) && r.assistant.role == Assistant
      requires if k in disk.results
               then ResultKept(disk.results[k], r) && NamedRightly(disk, k, r)
               else CallsMatch(r) && r.assistantId == ""
      modifies this`disk, this`log, this`turns
      ensures Valid()
      ensures Did(o, old(disk).(results := old(disk.results)[k := r])) && turns == old(turns)
    {
      hide LegalRun, TurnsIn, Grounded, Calm, StartsClosed, Accounts;
      DiskFacts();
      ResultWriteLegal(disk, k, r);
      SettledAccounts(log, Event(Wrote, disk.(results := disk.results[k := r])));
      o := Commit(disk.(results := disk.results[k := r]), Wrote);
    }

    /** SaveStepResult, for a result that was read back from the step file. */
    method SaveRebuiltResult(k: Key, r: StepResult) returns (o: Outcome)
      requires Valid() && k.turn in turns && k !in disk.results
      requires r.assistantId == "" && r.assistant.role == Assistant && r.calls == []
      modifies this`disk, this`log, this`turns
      ensures Valid()
      ensures Did(o, old(disk).(results := old(disk.results)[k := r])) && turns == old(turns)
    {
      hide LegalRun, TurnsIn, Grounded, Calm, StartsClosed, LegalWrite, Accounts;
      DiskFacts();
      ResultWriteLegal(disk, k, r);
      SettledAccounts(log, Event(Rebuilt(k), disk.(results := disk.results[k := r])));
      o := Commit(disk.(results := disk.results[k := r]), Rebuilt(k));
    }

    /** A message that was just saved goes to the end of the event index. */
    method SaveStepEvents(k: Key, id: string) returns (o: Outcome)
      requires id in disk.messages && ((Valid() && OwnParts(disk, k, disk.messages[id].msg.parts)) || Awaits(k, id))
      requires k.turn in turns && ChildFree(disk.messages, id)
      requires disk.turn.Some? ==> id != disk.turn.value.leaf
      modifies this`disk, this`log, this`turns
      ensures Valid()
      ensures Did(o, old(disk).(events := old(disk.events)[k := EventsOf(old(disk), k) + [id]])) && turns == old(turns)
    {
      hide LegalRun, TurnsIn, Grounded, Calm, StartsClosed, LegalWrite, ChildFree, Accounts, OwesListing, OwnParts;
      if Settled(log) {
        if OwesListing(log, k, id) {
          OwingIsUnsettled(log, k, disk.messages[id].msg, id);
        }
        OwnListingAccounts(log, k, id);
      } else {
        OwedListingAccounts(log, k, id);
      }
      EventWriteLegal(disk, k, id);
      o := Commit(disk.(events := disk.events[k := EventsOf(disk, k) + [id]]), Wrote);
      if o == Written {
        ListedIsSettled(old(log), k, id, log);
      }
    }

    method SaveAsyncContinuations(k: Key, continuations: seq<Continuation>) returns (o: Outcome)
      requires Valid() && k.turn in turns
      modifies this`disk, this`log, this`turns
      ensures Valid()
      ensures Did(o, old(disk).(async := old(disk.async)[k := continuations])) && turns == old(turns)
    {
      hide LegalRun, TurnsIn, Grounded, Calm, StartsClosed, Accounts, LegalWrite, RecordsNew, Consistent;
      DiskFacts();
      AsideLegal(disk, disk.(async := disk.async[k := continuations]));
      SettledAccounts(log, Event(Wrote, disk.(async := disk.async[k := continuations])));
      o := Commit(disk.(async := disk.async[k := continuations]), Wrote);
    }

    method SaveQuestion(q: AskKey, question: Question) returns (o: Outcome)
      requires Valid() && q !in disk.questions && q.approvalId in issued && q.approvalId != ""
      modifies this`disk, this`log, this`turns
      ensures Valid()
      ensures Did(o, old(disk).(questions := old(disk.questions)[q := question])) && turns == old(turns)
    {
      hide LegalRun, TurnsIn, Grounded, Calm, StartsClosed, LegalWrite, Accounts;
      DiskFacts();
      QuestionWriteLegal(disk, q, question);
      SettledAccounts(log, Event(Wrote, disk.(questions := disk.questions[q := question])));
      o := Commit(disk.(questions := disk.questions[q := question]), Wrote);
    }

    method SaveAnswer(q: AskKey, answer: string) returns (o: Outcome)
      requires Valid() && q in disk.questions
      modifies this`disk, this`log, this`turns
      ensures Valid()
      ensures Did(o, old(disk).(answers := old(disk.answers)[q := answer])) && turns == old(turns)
    {
      hide LegalRun, TurnsIn, Grounded, Calm, StartsClosed, LegalWrite, Accounts;
      DiskFacts();
      AnswerWriteLegal(disk, q, answer);
      SettledAccounts(log, Event(Wrote, disk.(answers := disk.answers[q := answer])));
      o := Commit(disk.(answers := disk.answers[q := answer]), Wrote);
    }

    method SaveStepChunks(k: Key, chunks: seq<Chunk>) returns (o: Outcome)
      requires Valid()
      modifies this`disk, this`log, this`turns
      ensures Valid()
      ensures Did(o, old(disk).(chunks := old(disk.chunks)[k := chunks])) && turns == old(turns)
    {
      hide LegalRun, TurnsIn, Grounded, Calm, StartsClosed, Accounts, LegalWrite, RecordsNew, Consistent;
      DiskFacts();
      AsideLegal(disk, disk.(chunks := disk.chunks[k := chunks]));
      SettledAccounts(log, Event(Wrote, disk.(chunks := disk.chunks[k := chunks])));
      o := Commit(disk.(chunks := disk.chunks[k := chunks]), Wrote);
    }

    method SaveTurnState(t: TurnState) returns (o: Outcome)
      requires Valid() && TurnConsistent(disk, t)
      requires if disk.turn.Some? && disk.turn.value.id == t.id
               then TurnMoves(disk, disk.turn.value, t)
               else t.id in issued && t.id !in turns
      modifies this`disk, this`log, this`turns
      ensures Valid()
      ensures Did(o, old(disk).(turn := Some(t)))
      ensures turns == if o == Written then old(turns) + {t.id} else old(turns)
    {
      hide LegalRun, TurnsIn, Grounded, Calm, StartsClosed, LegalWrite, Accounts;
      DiskFacts();
      TurnWriteLegal(disk, t);
      SettledAccounts(log, Event(Wrote, disk.(turn := Some(t))));
      o := Commit(disk.(turn := Some(t)), Wrote);
    }

    method DeleteTurnState() returns (o: Outcome)
      requires Valid()
      modifies this`disk, this`log, this`turns
      ensures Valid()
      ensures Did(o, old(disk).(turn := None)) && turns == old(turns)
    {
      hide LegalRun, TurnsIn, Grounded, Calm, StartsClosed, Accounts;
      DiskFacts();
      SettledAccounts(log, Event(Wrote, disk.(turn := None)));
      o := Commit(disk.(turn := None), Wrote);
    }
  }
}
