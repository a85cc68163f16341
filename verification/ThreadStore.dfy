/** What a thread keeps on disk, and what any run may do to it. */
module ThreadStore {
  import opened Messages
  import opened ToolClosure
  import opened Accumulator

  datatype Stored = Stored(parent: string, replacesId: string, msg: Message)

  datatype CallInfo = CallInfo(callId: string, toolName: string, input: string)

  /** The outcome of one model call. `assistantId` is filled in once the
      assistant message itself is on disk. */
  datatype StepResult = StepResult(assistantId: string, replacesId: string, assistant: Message, calls: seq<CallInfo>)

  datatype Continuation = Continuation(callId: string, toolName: string, payload: string, input: string)

  datatype Phase = Streaming | Tools | WaitingForAsync | WaitingForAnswer

  /** turn.json */
  datatype TurnState = TurnState(
    id: string, step: nat, phase: Phase, leaf: string, assistantId: string, pending: string)

  /** The phases that an answered question can lead back to. */
  type ResumePhase = p: Phase | p == Tools || p == WaitingForAsync witness Tools

  datatype Question = Question(callId: string, step: nat, resumePhase: ResumePhase, continuation: string)

  datatype Key = Key(turn: string, step: nat)
  datatype AskKey = AskKey(turn: string, approvalId: string)

  /** One thread directory. A file that does not exist is a missing key. */
  datatype Disk = Disk(
    messages: map<string, Stored>,
    results: map<Key, StepResult>,
    chunks: map<Key, seq<Chunk>>,
    events: map<Key, seq<string>>,
    async: map<Key, seq<Continuation>>,
    questions: map<AskKey, Question>,
    answers: map<AskKey, string>,
    turn: Option<TurnState>)

  const EMPTY := Disk(map[], map[], map[], map[], map[], map[], map[], None)

  function EventsOf(d: Disk, k: Key): seq<string> {
    if k in d.events then d.events[k] else []
  }

  function AsyncOf(d: Disk, k: Key): seq<Continuation> {
    if k in d.async then d.async[k] else []
  }

  // ----- Parent chains

  /** `ids` runs from the root of the thread to `leaf` along parent links. */
  ghost predicate IsChain(m: map<string, Stored>, leaf: string, ids: seq<string>) {
    && (ids == [] <==> leaf == "")
    && (ids != [] ==> ids[|ids| - 1] == leaf)
    && (forall i :: 0 <= i < |ids| ==> ids[i] in m && ids[i] != "")
    && (ids != [] ==> m[ids[0]].parent == "")
    && (forall i :: 0 < i < |ids| ==> m[ids[i]].parent == ids[i - 1])
  }

  function MessagesOf(m: map<string, Stored>, ids: seq<string>): (ms: seq<Message>)
    requires forall i :: 0 <= i < |ids| ==> ids[i] in m
    ensures |ms| == |ids|
  {
    seq(|ids|, i requires 0 <= i < |ids| => m[ids[i]].msg)
  }

  /** A chain never visits a message twice. */
  lemma {:induction false} ChainDistinct(m: map<string, Stored>, leaf: string, ids: seq<string>, i: nat, j: nat)
    requires IsChain(m, leaf, ids) && i < j < |ids|
    ensures ids[i] != ids[j]
    decreases i
  {
    if i > 0 {
      ChainDistinct(m, leaf, ids, i - 1, j - 1);
    }
    assert m[ids[j]].parent == ids[j - 1];
  }

  /** A leaf has at most one chain. */
  lemma {:induction false} ChainUnique(m: map<string, Stored>, leaf: string, a: seq<string>, b: seq<string>)
    requires IsChain(m, leaf, a) && IsChain(m, leaf, b)
    ensures a == b
    decreases |a|
  {
    if a != [] {
      var parent := m[leaf].parent;
      assert parent == (if |a| == 1 then "" else a[|a| - 2]);
      assert parent == (if |b| == 1 then "" else b[|b| - 2]);
      ChainUnique(m, parent, a[..|a| - 1], b[..|b| - 1]);
      assert a == a[..|a| - 1] + [leaf];
      assert b == b[..|b| - 1] + [leaf];
    }
  }

  /** Every message has a chain: parents exist and never form a cycle. */
  ghost predicate Grounded(m: map<string, Stored>) {
    "" !in m && forall id :: id in m ==> exists ids :: IsChain(m, id, ids)
  }

  /** Messages are only ever added. */
  ghost predicate MessagesKept(m: map<string, Stored>, m': map<string, Stored>) {
    forall id :: id in m ==> id in m' && m'[id] == m[id]
  }

  lemma ChainKept(m: map<string, Stored>, m': map<string, Stored>, leaf: string, ids: seq<string>)
    requires MessagesKept(m, m') && IsChain(m, leaf, ids)
    ensures IsChain(m', leaf, ids) && MessagesOf(m', ids) == MessagesOf(m, ids)
  {
  }

  lemma ChainExtended(m: map<string, Stored>, id: string, stored: Stored, ids: seq<string>)
    requires id != "" && id !in m && IsChain(m, stored.parent, ids)
    ensures var m' := m[id := stored];
      IsChain(m', id, ids + [id]) && MessagesOf(m', ids + [id]) == MessagesOf(m, ids) + [stored.msg]
  {
    var m' := m[id := stored];
    ChainKept(m, m', stored.parent, ids);
    assert MessagesOf(m', ids + [id]) == MessagesOf(m', ids) + [stored.msg];
  }

  /** Saving a fresh message under an existing parent, or at the root, keeps
      the store grounded. */
  lemma GroundedExtended(m: map<string, Stored>, id: string, stored: Stored)
    requires Grounded(m) && id != "" && id !in m && (stored.parent == "" || stored.parent in m)
    ensures Grounded(m[id := stored])
  {
    var m' := m[id := stored];
    forall x | x in m'
      ensures exists ids :: IsChain(m', x, ids)
    {
      if x == id {
        var ids := LeafChain(m, stored.parent);
        ChainExtended(m, id, stored, ids);
      } else {
        var ids :| IsChain(m, x, ids);
        ChainKept(m, m', x, ids);
      }
    }
  }

  ghost function LeafChain(m: map<string, Stored>, leaf: string): (ids: seq<string>)
    requires Grounded(m) && (leaf == "" || leaf in m)
    ensures IsChain(m, leaf, ids)
  {
    if leaf == "" then [] else var ids :| IsChain(m, leaf, ids); ids
  }

  // ----- Histories

  datatype Entry = Entry(id: string, parent: string, replacesId: string, msg: Message)
  datatype History = History(entries: seq<Entry>) | Missing(id: string) | Cycle(id: string)

  function EntryOf(m: map<string, Stored>, id: string): Entry
    requires id in m
  {
    Entry(id, m[id].parent, m[id].replacesId, m[id].msg)
  }

  /** What the walk from `leaf` has seen, newest first. */
  ghost predicate Walked(m: map<string, Stored>, leaf: string, walk: seq<Entry>, current: string) {
    && (forall k :: 0 <= k < |walk| ==> walk[k].id in m && walk[k].id != "" && walk[k] == EntryOf(m, walk[k].id))
    && (forall k :: 0 <= k < |walk| - 1 ==> walk[k].parent == walk[k + 1].id)
    && (walk != [] ==> walk[|walk| - 1].parent == current && walk[0].id == leaf)
    && (walk == [] ==> current == leaf)
  }

  /** The walk follows every chain of the leaf from its end. */
  lemma {:induction false} WalkFollowsChain(
    m: map<string, Stored>, leaf: string, walk: seq<Entry>, current: string, ids: seq<string>, k: nat)
    requires Walked(m, leaf, walk, current) && IsChain(m, leaf, ids) && k <= |walk|
    ensures k <= |ids|
    ensures k > 0 ==> walk[k - 1].id == ids[|ids| - k]
    ensures k == |walk| ==> current == if k == |ids| then "" else ids[|ids| - k - 1]
    decreases k
  {
    if k > 0 {
      WalkFollowsChain(m, leaf, walk, current, ids, k - 1);
      if k > 1 {
        assert walk[k - 2] == EntryOf(m, ids[|ids| - k + 1]) && walk[k - 2].parent == walk[k - 1].id;
      }
      if k == |walk| && k < |ids| {
        assert walk[k - 1] == EntryOf(m, ids[|ids| - k]) && walk[k - 1].parent == current;
      }
    }
  }

  /** A walk that comes back to itself, or to nothing, shows that the leaf has
      no chain. */
  lemma WalkStuck(m: map<string, Stored>, leaf: string, walk: seq<Entry>, current: string)
    requires Walked(m, leaf, walk, current) && current != ""
    requires current !in m || exists k :: 0 <= k < |walk| && walk[k].id == current
    ensures forall ids :: !IsChain(m, leaf, ids)
  {
    forall ids | IsChain(m, leaf, ids)
      ensures false
    {
      WalkFollowsChain(m, leaf, walk, current, ids, |walk|);
      if current in m {
        var k :| 0 <= k < |walk| && walk[k].id == current;
        WalkFollowsChain(m, leaf, walk, current, ids, k + 1);
        ChainDistinct(m, leaf, ids, |ids| - |walk| - 1, |ids| - k - 1);
      }
    }
  }

  /** BuildHistoryWithIDs: the parent chain of `leaf`, oldest first. It finds
      the chain exactly when there is one; only a missing or a repeated message
      makes it fail. */
  method BuildHistoryWithIDs(m: map<string, Stored>, leaf: string) returns (h: History)
    requires "" !in m
    ensures h.History? <==> exists ids :: IsChain(m, leaf, ids)
    ensures h.History? ==> forall ids :: IsChain(m, leaf, ids) ==>
      |h.entries| == |ids| && forall i :: 0 <= i < |ids| ==> h.entries[i] == EntryOf(m, ids[i])
    ensures h.Missing? ==> h.id !in m
    ensures Grounded(m) && (leaf == "" || leaf in m) ==> h.History?
  {
    if leaf == "" {
      assert IsChain(m, leaf, []);
    }
    var chain: seq<Entry> := [];
    var seen: set<string> := {};
    var currentId := leaf;
    while currentId != ""
      invariant Walked(m, leaf, chain, currentId)
      invariant seen <= m.Keys
      invariant seen == set e | e in chain :: e.id
      invariant forall a, b :: 0 <= a < b < |chain| ==> chain[a].id != chain[b].id
      decreases m.Keys - seen
    {
      if currentId in seen {
        var e :| e in chain && e.id == currentId;
        WalkStuck(m, leaf, chain, currentId);
        return Cycle(currentId);
      }
      if currentId !in m {
        WalkStuck(m, leaf, chain, currentId);
        return Missing(currentId);
      }
      seen := seen + {currentId};
      chain := chain + [EntryOf(m, currentId)];
      currentId := m[currentId].parent;
    }
    var entries := ReverseEntries(chain);
    ghost var found := seq(|entries|, i requires 0 <= i < |entries| => entries[i].id);
    assert IsChain(m, leaf, found);
    forall ids | IsChain(m, leaf, ids)
      ensures |entries| == |ids| && forall i :: 0 <= i < |ids| ==> entries[i] == EntryOf(m, ids[i])
    {
      ChainUnique(m, leaf, ids, found);
    }
    return History(entries);
  }

  /** The in-place reversal that ends both history builders. */
  method ReverseEntries(walk: seq<Entry>) returns (chain: seq<Entry>)
    ensures |chain| == |walk|
    ensures forall k :: 0 <= k < |walk| ==> chain[k] == walk[|walk| - 1 - k]
  {
    chain := walk;
    var i, j := 0, |chain| - 1;
    while i < j
      invariant |chain| == |walk| && 0 <= i && j == |walk| - 1 - i && i <= j + 1
      invariant forall k :: 0 <= k < |walk| && (k < i || j < k) ==> chain[k] == walk[|walk| - 1 - k]
      invariant forall k :: i <= k <= j ==> chain[k] == walk[k]
    {
      chain := chain[i := chain[j]][j := chain[i]];
      i, j := i + 1, j - 1;
    }
  }
}
