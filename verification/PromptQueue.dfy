/** The queue of prompts of one thread: what each edit of the list does, and
    where every accepted prompt ends up. */
module PromptQueue {
  import opened Messages
  import Text

  /** `runAfter` is a time, or None for the source's zero time. */
  datatype Prompt = Prompt(id: string, runAfter: Option<int>, message: string)

  datatype Update = Update(runAfter: Option<int>, clearRunAfter: bool, message: Option<string>, position: Option<int>)

  predicate Eligible(p: Prompt, now: int) {
    p.runAfter.None? || p.runAfter.value <= now
  }

  // ----- The list

  function Edited(p: Prompt, u: Update): (r: Prompt)
    ensures r.id == p.id
  {
    var runAfter := if u.clearRunAfter then None else if u.runAfter.Some? then u.runAfter else p.runAfter;
    Prompt(p.id, runAfter, if u.message.Some? then u.message.value else p.message)
  }

  /** An edit takes over what it names: a message, a time, or that the prompt is ready
      at once. */
  lemma EditedAsAsked(p: Prompt, u: Update, now: int)
    ensures Edited(p, u).message == if u.message.Some? then u.message.value else p.message
    ensures Eligible(Edited(p, u), now) <==>
      u.clearRunAfter || if u.runAfter.Some? then u.runAfter.value <= now else Eligible(p, now)
  {
  }

  predicate Has(q: seq<Prompt>, id: string) {
    exists i :: 0 <= i < |q| && q[i].id == id
  }

  function Without(q: seq<Prompt>, id: string): (r: seq<Prompt>)
    ensures |r| <= |q|
  {
    if q == [] then []
    else
      var rest, last := Without(q[..|q| - 1], id), q[|q| - 1];
      if last.id == id then rest else rest + [last]
  }

  /** The last prompt with the ID. */
  function LastOf(q: seq<Prompt>, id: string): (p: Prompt)
    requires Has(q, id)
    ensures p.id == id
  {
    if q[|q| - 1].id == id then q[|q| - 1] else LastOf(q[..|q| - 1], id)
  }

  function EditedIn(q: seq<Prompt>, id: string, u: Update): (r: seq<Prompt>)
    ensures |r| == |q|
  {
    seq(|q|, i requires 0 <= i < |q| => if q[i].id == id then Edited(q[i], u) else q[i])
  }

  function Clamp(position: int, length: nat): nat {
    if position < 0 then 0 else if position > length then length else position
  }

  /** Delete */
  method Deleted(q: seq<Prompt>, id: string) returns (next: seq<Prompt>, removed: bool)
    ensures next == Without(q, id) && removed == Has(q, id)
  {
    next, removed := [], false;
    for i := 0 to |q|
      invariant next == Without(q[..i], id)
      invariant removed == exists j :: 0 <= j < i && q[j].id == id
    {
      assert q[..i + 1][..i] == q[..i];
      if q[i].id == id {
        removed := true;
        continue;
      }
      next := next + [q[i]];
    }
    assert q[..|q|] == q;
  }

  /** The growing list's end is moved up by one from `position` on, and the
      prompt goes into the gap. */
  method InsertAt(q: seq<Prompt>, position: nat, p: Prompt) returns (next: seq<Prompt>)
    requires position <= |q|
    ensures next == q[..position] + [p] + q[position..]
  {
    next := q + [Prompt("", None, "")];
    var j := |q|;
    while j > position
      invariant position <= j <= |q| && |next| == |q| + 1
      invariant next[..j] == q[..j] && next[j + 1..] == q[j..]
    {
      next := next[j := next[j - 1]];
      j := j - 1;
    }
    next := next[position := p];
  }

  /** UpdatePrompt: edits in place, or takes the prompt out and puts it back at
      the clamped position. */
  method UpdatedPrompt(q: seq<Prompt>, id: string, u: Update) returns (next: seq<Prompt>, updated: bool)
    ensures updated == Has(q, id)
    ensures !updated ==> next == q
    ensures updated && u.position.None? ==> next == EditedIn(q, id, u)
    ensures updated && u.position.Some? ==>
      var others := Without(q, id); var at := Clamp(u.position.value, |others|);
      next == others[..at] + [Edited(LastOf(q, id), u)] + others[at..]
  {
    hide Has, EditedIn, Without, LastOf, Edited;
    next, updated := [], false;
    var updatedPrompt := Prompt("", None, "");
    NothingToUpdate(id, u);
    assert q[..0] == [];
    for i := 0 to |q|
      invariant updated == Has(q[..i], id)
      invariant next == if u.position.None? then EditedIn(q[..i], id, u) else Without(q[..i], id)
      invariant updated ==> updatedPrompt == Edited(LastOf(q[..i], id), u)
    {
      var prompt := q[i];
      assert q[..i + 1] == q[..i] + [prompt];
      UpdateMore(q[..i], prompt, id, u);
      if prompt.id != id {
        next := next + [prompt];
        continue;
      }
      updatedPrompt := Edited(prompt, u);
      updated := true;
      if u.position.None? {
        next := next + [updatedPrompt];
      }
    }
    assert q[..|q|] == q;
    if !updated {
      return q, false;
    }
    if u.position.Some? {
      next := InsertAt(next, Clamp(u.position.value, |next|), updatedPrompt);
    }
  }

  lemma NothingToUpdate(id: string, u: Update)
    ensures !Has([], id) && EditedIn([], id, u) == [] && Without([], id) == []
  {
  }

  lemma UpdateMore(q: seq<Prompt>, p: Prompt, id: string, u: Update)
    ensures Has(q + [p], id) <==> Has(q, id) || p.id == id
    ensures EditedIn(q + [p], id, u) == EditedIn(q, id, u) + [if p.id == id then Edited(p, u) else p]
    ensures Without(q + [p], id) == Without(q, id) + (if p.id == id then [] else [p])
    ensures Has(q + [p], id) ==> LastOf(q + [p], id) == if p.id == id then p else LastOf(q, id)
  {
    hide Edited;
    HasMore(q, p, id);
    assert (q + [p])[..|q|] == q && (q + [p])[|q|] == p;
  }

  lemma HasMore(q: seq<Prompt>, p: Prompt, id: string)
    ensures Has(q + [p], id) <==> Has(q, id) || p.id == id
  {
    if Has(q, id) {
      var i :| 0 <= i < |q| && q[i].id == id;
      assert (q + [p])[i].id == id;
    }
    if p.id == id {
      assert (q + [p])[|q|].id == id;
    }
  }

  /** `k` is the first prompt that may run. */
  predicate FirstEligible(q: seq<Prompt>, now: int, k: nat) {
    k < |q| && Eligible(q[k], now) && forall i :: 0 <= i < k ==> !Eligible(q[i], now)
  }

  /** Pop */
  method Popped(q: seq<Prompt>, now: int) returns (next: seq<Prompt>, prompt: Option<Prompt>)
    ensures prompt.None? ==> next == q && forall i :: 0 <= i < |q| ==> !Eligible(q[i], now)
    ensures prompt.Some? ==> exists k: nat ::
      FirstEligible(q, now, k) && prompt.value == q[k] && next == q[..k] + q[k + 1..]
  {
    next, prompt := [], None;
    ghost var k: nat := 0;
    for i := 0 to |q|
      invariant prompt.None? ==> next == q[..i] && forall j :: 0 <= j < i ==> !Eligible(q[j], now)
      invariant prompt.Some? ==> k < i && FirstEligible(q, now, k) && prompt.value == q[k] && next == q[..k] + q[k + 1..i]
    {
      if prompt.None? && Eligible(q[i], now) {
        prompt, k := Some(q[i]), i;
        continue;
      }
      next := next + [q[i]];
    }
    if prompt.None? {
      next := q;
    }
  }

  /** NextRunAfter: ready when some prompt may run, else the earliest time. */
  method NextRunAfter(q: seq<Prompt>, now: int) returns (runAfter: Option<int>, ready: bool)
    ensures ready <==> exists i :: 0 <= i < |q| && Eligible(q[i], now)
    ensures ready ==> runAfter.None?
    ensures !ready ==> (runAfter.None? <==> q == [])
    ensures !ready && q != [] ==>
      && (exists i :: 0 <= i < |q| && q[i].runAfter == runAfter)
      && (forall i :: 0 <= i < |q| ==> now < runAfter.value <= q[i].runAfter.value)
  {
    runAfter, ready := None, false;
    for i := 0 to |q|
      invariant !ready && (runAfter.None? <==> i == 0)
      invariant forall j :: 0 <= j < i ==> !Eligible(q[j], now) && now < runAfter.value <= q[j].runAfter.value
      invariant i > 0 ==> exists j :: 0 <= j < i && q[j].runAfter == runAfter
    {
      if Eligible(q[i], now) {
        return None, true;
      }
      if runAfter.None? || q[i].runAfter.value < runAfter.value {
        runAfter := q[i].runAfter;
      }
    }
  }

  // ----- Moving a prompt

  function Ids(q: seq<Prompt>): multiset<string> {
    if q == [] then multiset{} else Ids(q[..|q| - 1]) + multiset{q[|q| - 1].id}
  }

  lemma {:induction false} IdsConcat(a: seq<Prompt>, b: seq<Prompt>)
    ensures Ids(a + b) == Ids(a) + Ids(b)
  {
    if b == [] {
      assert a + b == a;
    } else {
      assert (a + b)[..|a + b| - 1] == a + b[..|b| - 1];
      IdsConcat(a, b[..|b| - 1]);
    }
  }

  lemma IdsOne(p: Prompt)
    ensures Ids([p]) == multiset{p.id}
  {
    assert [p][..0] == [];
  }

  lemma IdsSnoc(q: seq<Prompt>, p: Prompt)
    ensures Ids(q + [p]) == Ids(q) + multiset{p.id}
  {
    assert (q + [p])[..|q|] == q;
  }

  lemma DropOne(a: multiset<string>, x: string, id: string)
    ensures (a + multiset{x})[id := 0] == if x == id then a[id := 0] else a[id := 0] + multiset{x}
    ensures a[id := 0] + multiset{id} == a[id := 1]
  {
  }

  lemma {:induction false} HasIds(q: seq<Prompt>, id: string)
    ensures Has(q, id) <==> id in Ids(q)
  {
    if q != [] {
      var front, last := q[..|q| - 1], q[|q| - 1];
      HasIds(front, id);
      HasMore(front, last, id);
      assert q == front + [last];
    }
  }

  lemma {:induction false} IdsWithout(q: seq<Prompt>, id: string)
    ensures Ids(Without(q, id)) == Ids(q)[id := 0]
  {
    if q != [] {
      var front, last := q[..|q| - 1], q[|q| - 1];
      IdsWithout(front, id);
      assert q == front + [last];
      hide Ids;
      IdsSnoc(Without(front, id), last);
      IdsSnoc(front, last);
      DropOne(Ids(front), last.id, id);
    } else {
      assert multiset{}[id := 0] == multiset{};
    }
  }

  lemma {:induction false} IdsEdited(q: seq<Prompt>, id: string, u: Update)
    ensures Ids(EditedIn(q, id, u)) == Ids(q)
  {
    if q != [] {
      assert EditedIn(q, id, u)[..|q| - 1] == EditedIn(q[..|q| - 1], id, u);
      IdsEdited(q[..|q| - 1], id, u);
    }
  }

  lemma {:induction false} WithoutConcat(a: seq<Prompt>, b: seq<Prompt>, id: string)
    ensures Without(a + b, id) == Without(a, id) + Without(b, id)
  {
    if b == [] {
      assert a + b == a;
    } else {
      assert (a + b)[..|a + b| - 1] == a + b[..|b| - 1];
      WithoutConcat(a, b[..|b| - 1], id);
    }
  }

  lemma {:induction false} WithoutTwice(q: seq<Prompt>, id: string)
    ensures Without(Without(q, id), id) == Without(q, id)
  {
    if q != [] {
      var rest, last := Without(q[..|q| - 1], id), q[|q| - 1];
      WithoutTwice(q[..|q| - 1], id);
      if last.id != id {
        assert (rest + [last])[..|rest|] == rest;
      }
    }
  }

  /** A moved prompt stands at the clamped position, the others keep their
      order; with one prompt of that ID nothing else is gained or lost. */
  lemma MovedPrompt(q: seq<Prompt>, id: string, p: Prompt, at: nat)
    requires p.id == id && at <= |Without(q, id)|
    ensures var others := Without(q, id); var next := others[..at] + [p] + others[at..];
      && next[at] == p && Without(next, id) == others
      && Ids(next) == Ids(q)[id := 1]
  {
    hide Ids;
    var others := Without(q, id);
    var next := others[..at] + [p] + others[at..];
    assert others == others[..at] + others[at..];
    IdsWithout(q, id);
    DropOne(Ids(q), id, id);
    IdsConcat(others[..at], others[at..]);
    IdsSnoc(others[..at], p);
    IdsConcat(others[..at] + [p], others[at..]);
    assert Ids(next) == Ids(others) + multiset{id};
    OthersStay(others, p, at, q);
  }

  lemma OthersStay(others: seq<Prompt>, p: Prompt, at: nat, q: seq<Prompt>)
    requires others == Without(q, p.id) && at <= |others|
    ensures Without(others[..at] + [p] + others[at..], p.id) == others
  {
    assert others == others[..at] + others[at..];
    assert [p][..0] == [];
    WithoutTwice(q, p.id);
    WithoutConcat(others[..at], others[at..], p.id);
    WithoutConcat(others[..at], [p], p.id);
    WithoutConcat(others[..at] + [p], others[at..], p.id);
    assert Without([p], p.id) == [];
    assert Without(others[..at], p.id) + [] == Without(others[..at], p.id);
  }

  lemma PoppedIds(q: seq<Prompt>, k: nat)
    requires k < |q|
    ensures Ids(q) == Ids(q[..k] + q[k + 1..]) + multiset{q[k].id}
  {
    hide Ids;
    assert q == q[..k] + [q[k]] + q[k + 1..];
    IdsConcat(q[..k], q[k + 1..]);
    IdsSnoc(q[..k], q[k]);
    IdsConcat(q[..k] + [q[k]], q[k + 1..]);
  }

  // ----- Accounts

  /** Every accepted prompt is in exactly one place. */
  ghost predicate Balanced(
    accepted: multiset<string>, queued: multiset<string>, flying: multiset<string>, started: multiset<string>,
    removed: multiset<string>, lost: multiset<string>)
  {
    && accepted == queued + flying + started + removed + lost
    && forall id :: accepted[id] <= 1
  }

  lemma QueuedOnce(
    accepted: multiset<string>, queued: multiset<string>, flying: multiset<string>, started: multiset<string>,
    removed: multiset<string>, lost: multiset<string>, id: string)
    requires Balanced(accepted, queued, flying, started, removed, lost) && id in queued
    ensures queued[id := 1] == queued && queued == queued[id := 0] + multiset{id}
    ensures Balanced(accepted, queued[id := 0], flying, started, removed + multiset{id}, lost)
  {
    assert accepted[id] <= 1;
    assert queued[id] == 1;
    var rest := queued[id := 0];
    assert queued == rest + multiset{id};
    assert accepted == rest + flying + started + (removed + multiset{id}) + lost;
  }

  lemma Taken(
    accepted: multiset<string>, queued: multiset<string>, flying: multiset<string>, started: multiset<string>,
    removed: multiset<string>, lost: multiset<string>, rest: multiset<string>, id: string)
    requires Balanced(accepted, queued, flying, started, removed, lost) && queued == rest + multiset{id}
    ensures Balanced(accepted, rest, flying + multiset{id}, started, removed, lost)
  {
    assert accepted == rest + (flying + multiset{id}) + started + removed + lost;
  }

  lemma Landed(
    accepted: multiset<string>, queued: multiset<string>, flying: multiset<string>, started: multiset<string>,
    removed: multiset<string>, lost: multiset<string>, rest: multiset<string>, id: string)
    requires Balanced(accepted, queued, flying, started, removed, lost) && flying == rest + multiset{id}
    ensures Balanced(accepted, queued, rest, started + multiset{id}, removed, lost)
    ensures Balanced(accepted, queued + multiset{id}, rest, started, removed, lost)
    ensures Balanced(accepted, queued, rest, started, removed, lost + multiset{id})
  {
    assert accepted == queued + rest + (started + multiset{id}) + removed + lost;
    assert accepted == (queued + multiset{id}) + rest + started + removed + lost;
    assert accepted == queued + rest + started + removed + (lost + multiset{id});
  }

  lemma Accepted(
    accepted: multiset<string>, queued: multiset<string>, flying: multiset<string>, started: multiset<string>,
    removed: multiset<string>, lost: multiset<string>, id: string)
    requires Balanced(accepted, queued, flying, started, removed, lost) && id !in accepted
    ensures Balanced(accepted + multiset{id}, queued + multiset{id}, flying, started, removed, lost)
  {
  }

  lemma AllLost(
    accepted: multiset<string>, queued: multiset<string>, flying: multiset<string>, started: multiset<string>,
    removed: multiset<string>, lost: multiset<string>)
    requires Balanced(accepted, queued, flying, started, removed, lost)
    ensures Balanced(accepted, queued, multiset{}, started, removed, lost + flying)
  {
    assert accepted == queued + multiset{} + started + removed + (lost + flying);
  }

  // ----- The manager

  /** How an attempt to start a turn ended. */
  datatype Start = Begun | QuestionPending | StartFailed

  /** Each method is one stretch of code under the manager's lock; between
      taking a prompt out and starting it the lock is free. */
  class Manager {
    var queue: seq<Prompt>
    /** Prompts that were popped and are about to be started. */
    var inFlight: seq<Prompt>
    /** The IDs drawn so far. */
    ghost var accepted: multiset<string>
    ghost var started: multiset<string>
    ghost var removed: multiset<string>
    ghost var lost: multiset<string>

    ghost predicate Valid()
      reads this
    {
      Balanced(accepted, Ids(queue), Ids(inFlight), started, removed, lost)
    }

    constructor ()
      ensures Valid() && queue == [] && inFlight == [] && accepted == multiset{}
    {
      queue, inFlight := [], [];
      accepted, started, removed, lost := multiset{}, multiset{}, multiset{}, multiset{};
    }

    /** Enqueue */
    method Enqueue(id: string, runAfter: Option<int>, message: string) returns (saved: bool)
      requires Valid() && id !in accepted
      modifies this`queue, this`accepted
      ensures Valid() && accepted == if saved then old(accepted) + multiset{id} else old(accepted)
      ensures queue == if saved then old(queue) + [Prompt(id, runAfter, message)] else old(queue)
    {
      hide Balanced, Ids;
      saved := *;
      if saved {
        IdsSnoc(queue, Prompt(id, runAfter, message));
        Accepted(accepted, Ids(queue), Ids(inFlight), started, removed, lost, id);
        queue := queue + [Prompt(id, runAfter, message)];
        accepted := accepted + multiset{id};
      }
    }

    /** Delete */
    method Delete(id: string) returns (done: bool)
      requires Valid()
      modifies this`queue, this`removed
      ensures Valid()
      ensures done ==> Has(old(queue), id) && queue == Without(old(queue), id) && removed == old(removed) + multiset{id}
      ensures !done ==> queue == old(queue) && removed == old(removed)
    {
      hide Balanced, Ids;
      var next, found := Deleted(queue, id);
      done := *;
      if !found || !done {
        return false;
      }
      HasIds(queue, id);
      IdsWithout(queue, id);
      QueuedOnce(accepted, Ids(queue), Ids(inFlight), started, removed, lost, id);
      queue, removed := next, removed + multiset{id};
    }

    /** UpdatePrompt */
    method UpdatePrompt(id: string, u: Update) returns (done: bool)
      requires Valid()
      modifies this`queue
      ensures Valid()
      ensures !done ==> queue == old(queue)
      ensures done ==> Has(old(queue), id) && Ids(queue) == Ids(old(queue)) && Without(queue, id) == Without(old(queue), id)
      ensures done && u.position.Some? ==>
        && Clamp(u.position.value, |Without(old(queue), id)|) < |queue|
        && queue[Clamp(u.position.value, |Without(old(queue), id)|)] == Edited(LastOf(old(queue), id), u)
    {
      hide Balanced, Ids, EditedIn;
      var next, found := UpdatedPrompt(queue, id, u);
      done := *;
      if !found || !done {
        return false;
      }
      HasIds(queue, id);
      IdsWithout(queue, id);
      QueuedOnce(accepted, Ids(queue), Ids(inFlight), started, removed, lost, id);
      IdsEdited(queue, id, u);
      if u.position.Some? {
        var others := Without(queue, id);
        MovedPrompt(queue, id, Edited(LastOf(queue, id), u), Clamp(u.position.value, |others|));
      } else {
        WithoutEdited(queue, id, u);
      }
      queue := next;
    }

    /** StartNext, first half: nothing happens while the thread is busy, else
        the first prompt that may run is taken out of the queue. */
    method TakeNext(now: int, busy: bool) returns (prompt: Option<Prompt>)
      requires Valid()
      modifies this`queue, this`inFlight
      ensures Valid()
      ensures prompt.None? ==> queue == old(queue) && inFlight == old(inFlight)
      ensures prompt.Some? ==> !busy && inFlight == old(inFlight) + [prompt.value] && exists k: nat ::
        FirstEligible(old(queue), now, k) && prompt.value == old(queue)[k] && queue == old(queue)[..k] + old(queue)[k + 1..]
    {
      hide Balanced, Ids;
      if busy {
        return None;
      }
      var next;
      next, prompt := Popped(queue, now);
      var saved: bool := *;
      if prompt.None? || !saved {
        return None;
      }
      ghost var k: nat :| FirstEligible(queue, now, k) && prompt.value == queue[k] && next == queue[..k] + queue[k + 1..];
      PoppedIds(queue, k);
      IdsSnoc(inFlight, prompt.value);
      Taken(accepted, Ids(queue), Ids(inFlight), started, removed, lost, Ids(next), prompt.value.id);
      queue, inFlight := next, inFlight + [prompt.value];
    }

    /** StartNext, second half: the prompt is started, or it goes back to the
        front of the queue, later if it could not be started at all. Only a
        write error on the way back loses it. */
    method StartOrRestore(i: nat, outcome: Start, retryAt: int) returns (restored: bool)
      requires Valid() && i < |inFlight|
      modifies this
      ensures Valid() && inFlight == old(inFlight)[..i] + old(inFlight)[i + 1..]
      ensures accepted == old(accepted) && removed == old(removed)
      ensures outcome == Begun ==>
        !restored && queue == old(queue) && lost == old(lost) && started == old(started) + multiset{old(inFlight)[i].id}
      ensures outcome != Begun ==> started == old(started)
      ensures outcome != Begun && restored ==>
        && lost == old(lost) && |queue| == |old(queue)| + 1 && queue[1..] == old(queue)
        && var p := old(inFlight)[i];
        queue[0] == if outcome == StartFailed && p.runAfter.None? then p.(runAfter := Some(retryAt)) else p
      ensures outcome != Begun && !restored ==> queue == old(queue) && lost == old(lost) + multiset{old(inFlight)[i].id}
    {
      hide Balanced, Ids;
      var prompt := inFlight[i];
      PoppedIds(inFlight, i);
      ghost var rest := inFlight[..i] + inFlight[i + 1..];
      Landed(accepted, Ids(queue), Ids(inFlight), started, removed, lost, Ids(rest), prompt.id);
      inFlight := inFlight[..i] + inFlight[i + 1..];
      restored := false;
      if outcome == Begun {
        started := started + multiset{prompt.id};
        return;
      }
      if outcome == StartFailed && prompt.runAfter.None? {
        prompt := prompt.(runAfter := Some(retryAt));
      }
      restored := *;
      if restored {
        IdsConcat([prompt], queue);
        IdsOne(prompt);
        assert multiset{prompt.id} + Ids(queue) == Ids(queue) + multiset{prompt.id};
        queue := [prompt] + queue;
      } else {
        lost := lost + multiset{prompt.id};
      }
    }

    /** The process ends: what was taken out and not yet started is lost. */
    method Crash()
      requires Valid()
      modifies this`inFlight, this`lost
      ensures Valid() && inFlight == [] && lost == old(lost) + Ids(old(inFlight))
    {
      AllLost(accepted, Ids(queue), Ids(inFlight), started, removed, lost);
      lost, inFlight := lost + Ids(inFlight), [];
    }
  }

  lemma {:induction false} WithoutEdited(q: seq<Prompt>, id: string, u: Update)
    ensures Without(EditedIn(q, id, u), id) == Without(q, id)
  {
    if q != [] {
      assert EditedIn(q, id, u)[..|q| - 1] == EditedIn(q[..|q| - 1], id, u);
      WithoutEdited(q[..|q| - 1], id, u);
    }
  }

  datatype Request =
    | Add(runAfter: Option<int>, message: string)
    | Remove(id: string)
    | Change(id: string, update: Update)
    | Take(now: int, busy: bool)
    | Finish(index: nat, outcome: Start, retryAt: int)
    | Restart

  /** Any interleaving of requests: every prompt that was accepted is queued, in
      flight, started, removed or lost, and in one of these only. */
  method Interleave(requests: seq<Request>) returns (m: Manager)
    ensures fresh(m) && m.Valid()
  {
    m := new Manager();
    var drawn: set<string> := {};
    for n := 0 to |requests|
      invariant fresh(m) && m.Valid() && forall id :: id in m.accepted ==> id in drawn
    {
      match requests[n]
      case Add(runAfter, message) =>
        var id := Text.NewString(drawn);
        drawn := drawn + {id};
        var saved := m.Enqueue(id, runAfter, message);
      case Remove(id) => var done := m.Delete(id);
      case Change(id, update) => var done := m.UpdatePrompt(id, update);
      case Take(now, busy) => var prompt := m.TakeNext(now, busy);
      case Finish(index, outcome, retryAt) =>
        if index < |m.inFlight| {
          var restored := m.StartOrRestore(index, outcome, retryAt);
        }
      case Restart => m.Crash();
    }
  }
}
