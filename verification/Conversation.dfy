/** The conversation manager: which completion a thread is running, and the
    event log that clients read. Every method below is one stretch of code that
    the source runs under its locks, so an interleaving is any order of them. */
module Conversation {
  import opened Messages
  import opened Accumulator
  import opened Coalescing
  import Text

  /** `Preparing` until the agent has the stream, `Running` while a goroutine
      drives it, `Finished` is the source's done flag, `Failed` a completion
      whose preparation returned an error. */
  datatype Stage = Preparing | Running(sawStart: bool) | Finished | Failed

  datatype Completion = Completion(
    threadId: string, events: seq<Chunk>, stage: Stage, err: Option<string>, leaf: string, cancelled: bool)

  predicate Live(c: Completion) {
    c.stage.Preparing? || c.stage.Running?
  }

  /** A finished completion never changes again; of any other the log grows. */
  predicate Kept(c: Completion, c': Completion) {
    && c'.threadId == c.threadId && c.events <= c'.events
    && (c.stage.Finished? ==> c' == c)
    && (c.stage.Failed? ==> c'.stage.Failed?)
  }

  ghost predicate AllKept(before: map<string, Completion>, after: map<string, Completion>) {
    forall id :: id in before ==> id in after && Kept(before[id], after[id])
  }

  lemma KeptTrans(a: map<string, Completion>, b: map<string, Completion>, c: map<string, Completion>)
    requires AllKept(a, b) && AllKept(b, c)
    ensures AllKept(a, c)
  {
    forall id | id in a
      ensures id in c && Kept(a[id], c[id])
    {
      assert Kept(a[id], b[id]) && Kept(b[id], c[id]);
    }
  }

  /** What a thread has registered is its completion, and every completion that
      is still live is registered. */
  ghost predicate Registered(active: map<string, string>, completions: map<string, Completion>) {
    && (forall t :: t in active ==>
          active[t] in completions && completions[active[t]].threadId == t && !completions[active[t]].stage.Failed?)
    && (forall id :: id in completions && Live(completions[id]) ==>
          completions[id].threadId in active && active[completions[id].threadId] == id)
  }

  /** A thread never has two live completions. */
  lemma OneLive(active: map<string, string>, completions: map<string, Completion>, a: string, b: string)
    requires Registered(active, completions)
    requires a in completions && b in completions && Live(completions[a]) && Live(completions[b])
    requires completions[a].threadId == completions[b].threadId
    ensures a == b && active[completions[a].threadId] == a
  {
  }

  datatype Started = New(id: string) | InProgress(id: string)

  datatype PollResult =
    | NoCompletion
    | StillWaiting
    | Panics
    | Batch(id: string, chunks: seq<Chunk>, offsets: seq<nat>, nextOffset: nat, done: bool)

  /** What a reader at `offset` gets of a log. */
  function BatchOf(id: string, c: Completion, offset: nat): PollResult
    requires offset <= |c.events|
  {
    Batch(id, Coalesce(c.events[offset..]), Offsets(c.events[offset..], offset), |c.events|, c.stage.Finished?)
  }

  class ConversationManager {
    /** The registered completion of each thread. */
    var active: map<string, string>
    /** Every completion there ever was, by ID. */
    var completions: map<string, Completion>

    ghost predicate Valid()
      reads this
    {
      Registered(active, completions)
    }

    constructor ()
      ensures Valid() && active == map[] && completions == map[]
    {
      active, completions := map[], map[];
    }

    /** activeCompletionIDLocked; `external` is what an external provider says. */
    method ActiveCompletionId(threadId: string, external: string) returns (id: string)
      requires Valid()
      ensures threadId in active && Live(completions[active[threadId]]) ==> id == active[threadId]
      ensures !(threadId in active && Live(completions[active[threadId]])) ==> id == external
    {
      if threadId !in active {
        return external;
      }
      var comp := completions[active[threadId]];
      if comp.stage.Finished? {
        return external;
      }
      id := active[threadId];
    }

    /** startCompletion, first half: refused while the thread has a live
        completion, whoever asks. */
    method Begin(threadId: string, external: string) returns (r: Started)
      requires Valid() && "" !in completions
      modifies this
      ensures Valid() && AllKept(old(completions), completions)
      ensures r.InProgress? ==> active == old(active) && completions == old(completions) && r.id != ""
      ensures r.InProgress? <==>
        || external != ""
        || (exists id :: id in old(completions) && Live(old(completions)[id]) && old(completions)[id].threadId == threadId)
      ensures r.InProgress? && threadId in active && Live(completions[active[threadId]]) ==> r.id == active[threadId]
      ensures r.New? ==>
        && r.id !in old(completions) && r.id != ""
        && completions == old(completions)[r.id := Completion(threadId, [], Preparing, None, "", false)]
        && active == old(active)[threadId := r.id]
    {
      var existing := ActiveCompletionId(threadId, external);
      if existing != "" {
        return InProgress(existing);
      }
      var id := Text.NewString(completions.Keys);
      completions := completions[id := Completion(threadId, [], Preparing, None, "", false)];
      active := active[threadId := id];
      r := New(id);
    }

    /** The preparation failed: the completion is unregistered. */
    method PrepareFailed(id: string)
      requires Valid() && id in completions && completions[id].stage.Preparing?
      modifies this
      ensures Valid() && AllKept(old(completions), completions)
      ensures completions == old(completions)[id := old(completions)[id].(stage := Failed)]
      ensures active == old(active) - {old(completions)[id].threadId}
    {
      var comp := completions[id];
      completions := completions[id := comp.(stage := Failed)];
      if comp.threadId in active && active[comp.threadId] == id {
        active := active - {comp.threadId};
      }
    }

    /** The preparation succeeded: a goroutine takes over. */
    method PrepareDone(id: string, leaf: string)
      requires Valid() && id in completions && completions[id].stage.Preparing?
      modifies this`completions
      ensures Valid() && AllKept(old(completions), completions)
      ensures completions == old(completions)[id := old(completions)[id].(stage := Running(false), leaf := leaf)]
    {
      completions := completions[id := completions[id].(stage := Running(false), leaf := leaf)];
    }

    /** runCompletion: one chunk of the stream. */
    method RunnerChunk(id: string, chunk: Chunk)
      requires Valid() && id in completions && completions[id].stage.Running?
      modifies this`completions
      ensures Valid() && AllKept(old(completions), completions)
      ensures completions[id].events == old(completions)[id].events + [chunk]
      ensures completions.Keys == old(completions).Keys
      ensures forall x :: x in completions && x != id ==> completions[x] == old(completions)[x]
    {
      var comp := completions[id];
      var sawStart := comp.stage.sawStart || chunk.StartChunk?;
      completions := completions[id := comp.(events := comp.events + [chunk], stage := Running(sawStart))];
    }

    /** runCompletion: the stream broke off with an error. Clients always see a
        start chunk before the error chunk. */
    method RunnerError(id: string, errorText: string, startId: string)
      requires Valid() && id in completions && completions[id].stage.Running?
      modifies this`completions
      ensures Valid() && AllKept(old(completions), completions)
      ensures completions[id].stage.Finished? && completions[id].err == Some(errorText)
      ensures completions[id].events == old(completions)[id].events +
        (if old(completions)[id].stage.sawStart then [] else [StartChunk(startId)]) + [ErrorChunk(errorText)]
      ensures completions.Keys == old(completions).Keys
      ensures forall x :: x in completions && x != id ==> completions[x] == old(completions)[x]
    {
      var comp := completions[id];
      var events := comp.events;
      if !comp.stage.sawStart {
        events := events + [StartChunk(startId)];
      }
      events := events + [ErrorChunk(errorText)];
      completions := completions[id := comp.(events := events, err := Some(errorText), stage := Finished)];
    }

    /** runCompletion: the stream ended. */
    method RunnerEnd(id: string)
      requires Valid() && id in completions && completions[id].stage.Running?
      modifies this`completions
      ensures Valid() && AllKept(old(completions), completions)
      ensures completions[id].stage.Finished? && completions[id].events == old(completions)[id].events
      ensures completions.Keys == old(completions).Keys
      ensures forall x :: x in completions && x != id ==> completions[x] == old(completions)[x]
    {
      var comp := completions[id];
      var err := if comp.cancelled then Some("context canceled") else comp.err;
      completions := completions[id := comp.(err := err, stage := Finished)];
    }

    /** EmitChunkIfActive, first half: the lookup. */
    method EmitLookup(threadId: string) returns (id: Option<string>)
      requires Valid()
      ensures id == if threadId in active then Some(active[threadId]) else None
    {
      id := if threadId in active then Some(active[threadId]) else None;
    }

    /** EmitChunkIfActive, second half, at any later moment: a log that was
        finished in between is left alone. */
    method EmitAppend(id: string, chunk: Chunk) returns (emitted: bool)
      requires Valid() && id in completions
      modifies this`completions
      ensures Valid() && AllKept(old(completions), completions)
      ensures emitted == !old(completions)[id].stage.Finished?
      ensures completions ==
        if emitted then old(completions)[id := old(completions)[id].(events := old(completions)[id].events + [chunk])]
        else old(completions)
    {
      var comp := completions[id];
      if comp.stage.Finished? {
        return false;
      }
      completions := completions[id := comp.(events := comp.events + [chunk])];
      emitted := true;
    }

    /** Cancel: a live completion's context is cancelled; its log goes on until
        the goroutine ends it. */
    method Cancel(threadId: string) returns (id: Option<string>)
      requires Valid()
      modifies this`completions
      ensures Valid() && AllKept(old(completions), completions)
      ensures id == if threadId in active && Live(old(completions)[active[threadId]]) then Some(active[threadId]) else None
      ensures completions ==
        if id.None? then old(completions)
        else old(completions)[id.value := old(completions)[id.value].(cancelled := true)]
      ensures completions.Keys == old(completions).Keys
    {
      if threadId !in active || completions[active[threadId]].stage.Finished? {
        return None;
      }
      id := Some(active[threadId]);
      completions := completions[id.value := completions[id.value].(cancelled := true)];
    }

    /** PollChunks: everything from `offset` on, or nothing past the end. */
    method PollChunks(threadId: string, offset: int) returns (r: PollResult)
      requires Valid()
      ensures threadId !in active <==> r == NoCompletion
      ensures threadId in active ==>
        var id, c := active[threadId], completions[active[threadId]];
        r == if offset < 0 then Panics
             else if offset < |c.events| then BatchOf(id, c, offset)
             else Batch(id, [], [], |c.events|, c.stage.Finished?)
    {
      if threadId !in active {
        return NoCompletion;
      }
      var id, comp := active[threadId], completions[active[threadId]];
      if offset >= |comp.events| {
        return Batch(id, [], [], |comp.events|, comp.stage.Finished?);
      }
      if offset < 0 {
        return Panics;
      }
      var chunks, offsets := CoalesceChunkBatch(comp.events[offset..], offset);
      r := Batch(id, chunks, offsets, |comp.events|, comp.stage.Finished?);
    }

    /** WaitChunks, looked at once: it goes on waiting, or answers with what is
        there. A newer completion is answered from its start. Unlike PollChunks
        it slices without a check, so an offset past the end panics as soon as
        the completion is finished or the caller stops waiting. */
    method WaitChunks(threadId: string, expected: string, offset: int, stopped: bool) returns (r: PollResult)
      requires Valid()
      ensures threadId !in active <==> r == NoCompletion
      ensures threadId in active ==>
        var id, c := active[threadId], completions[active[threadId]];
        r == if expected != "" && id != expected then BatchOf(id, c, 0)
             else if |c.events| <= offset && !c.stage.Finished? && !stopped then StillWaiting
             else if 0 <= offset <= |c.events| then BatchOf(id, c, offset)
             else Panics
    {
      if threadId !in active {
        return NoCompletion;
      }
      var id, comp := active[threadId], completions[active[threadId]];
      if expected != "" && id != expected {
        var all, allOffsets := CoalesceChunkBatch(comp.events, 0);
        assert comp.events[0..] == comp.events;
        return Batch(id, all, allOffsets, |comp.events|, comp.stage.Finished?);
      }
      if |comp.events| <= offset && !comp.stage.Finished? && !stopped {
        return StillWaiting;
      }
      if offset < 0 || offset > |comp.events| {
        return Panics;
      }
      var chunks, offsets := CoalesceChunkBatch(comp.events[offset..], offset);
      r := Batch(id, chunks, offsets, |comp.events|, comp.stage.Finished?);
    }
  }

  // ----- Interleavings

  datatype Action =
    | Start(threadId: string, external: string)
    | Fail(id: string)
    | Ready(id: string, leaf: string)
    | Chunk(id: string, chunk: Accumulator.Chunk)
    | Break(id: string, text: string, startId: string)
    | End(id: string)
    | Emit(id: string, chunk: Accumulator.Chunk)
    | Stop(threadId: string)

  /** Any interleaving of the steps, an emit coming as late as it likes after
      its lookup. Throughout, each thread has at most one live completion, the
      registered one; logs only grow; a finished completion stays as it is. */
  method Interleave(actions: seq<Action>)
    returns (cm: ConversationManager, ghost past: seq<map<string, Completion>>)
    ensures fresh(cm) && cm.Valid() && |past| == |actions| + 1 && past[|actions|] == cm.completions
    ensures forall i, j :: 0 <= i <= j < |past| ==> AllKept(past[i], past[j])
    ensures forall i :: 0 <= i < |past| ==> OneLivePerThread(past[i])
  {
    hide AllKept, Registered, OneLivePerThread;
    cm := new ConversationManager();
    past := [cm.completions];
    NothingYet();
    for n := 0 to |actions|
      invariant fresh(cm) && cm.Valid() && "" !in cm.completions && |past| == n + 1 && past[n] == cm.completions
      invariant forall i, j :: 0 <= i <= j < |past| ==> AllKept(past[i], past[j])
      invariant forall i :: 0 <= i < |past| ==> OneLivePerThread(past[i])
    {
      ghost var before := cm.completions;
      Perform(cm, actions[n]);
      forall i | 0 <= i <= n
        ensures AllKept(past[i], cm.completions)
      {
        KeptTrans(past[i], before, cm.completions);
      }
      KeptRefl(cm.completions);
      LiveIsUnique(cm.active, cm.completions);
      past := past + [cm.completions];
    }
  }

  /** One step, if the completion it is about is in the right stage. */
  method Perform(cm: ConversationManager, a: Action)
    requires cm.Valid() && "" !in cm.completions
    modifies cm
    ensures cm.Valid() && "" !in cm.completions && AllKept(old(cm.completions), cm.completions)
  {
    hide AllKept, Registered;
    KeptRefl(cm.completions);
    match a
    case Start(threadId, external) => var r := cm.Begin(threadId, external);
    case Stop(threadId) => var id := cm.Cancel(threadId);
    case Fail(id) =>
      if id in cm.completions && cm.completions[id].stage.Preparing? {
        cm.PrepareFailed(id);
      }
    case Ready(id, leaf) =>
      if id in cm.completions && cm.completions[id].stage.Preparing? {
        cm.PrepareDone(id, leaf);
      }
    case Emit(id, chunk) =>
      if id in cm.completions {
        var emitted := cm.EmitAppend(id, chunk);
      }
    case Chunk(id, chunk) =>
      if id in cm.completions && cm.completions[id].stage.Running? {
        cm.RunnerChunk(id, chunk);
      }
    case Break(id, text, startId) =>
      if id in cm.completions && cm.completions[id].stage.Running? {
        cm.RunnerError(id, text, startId);
      }
    case End(id) =>
      if id in cm.completions && cm.completions[id].stage.Running? {
        cm.RunnerEnd(id);
      }
  }

  lemma KeptRefl(m: map<string, Completion>)
    ensures AllKept(m, m)
  {
  }

  ghost predicate OneLivePerThread(m: map<string, Completion>) {
    forall a, b :: a in m && b in m && Live(m[a]) && Live(m[b]) && m[a].threadId == m[b].threadId ==> a == b
  }

  lemma LiveIsUnique(active: map<string, string>, m: map<string, Completion>)
    requires Registered(active, m)
    ensures OneLivePerThread(m)
  {
  }

  lemma NothingYet()
    ensures AllKept(map[], map[]) && OneLivePerThread(map[])
  {
  }
}
