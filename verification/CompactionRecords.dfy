/** Plans and records: which messages a compaction replaces, what it writes to
    disk, and how the record is read back. */
module CompactionRecords {
  import opened Messages
  import opened Text
  import opened ToolClosure
  import opened ThreadStore
  import opened HistorySplit
  import opened Compaction

  /** compaction.json: everything up to the leaf stands summarised. */
  datatype Record = Record(summaryText: string, leaf: string)

  datatype Item = Item(message: Message, leafId: string)

  datatype Plan = Plan(toSummarize: seq<Message>, tail: seq<Message>, leaf: string)

  predicate IsReminder(m: Message) {
    m.role == User && exists i :: 0 <= i < |m.parts| && m.parts[i].TextPart? && Contains(m.parts[i].text, "<system-reminder>")
  }

  predicate Skipped(e: Entry) {
    e.msg.synthetic || IsReminder(e.msg)
  }

  function Msgs(es: seq<Entry>): (ms: seq<Message>)
    ensures |ms| == |es|
  {
    seq(|es|, i requires 0 <= i < |es| => es[i].msg)
  }

  /** The conversation proper: neither synthetic nor a reminder. */
  function Real(es: seq<Entry>): seq<Entry> {
    if es == [] then []
    else
      var rest, last := Real(es[..|es| - 1]), es[|es| - 1];
      if Skipped(last) then rest else rest + [last]
  }

  function ItemsOf(es: seq<Entry>): (items: seq<Item>)
    ensures |items| == |es|
  {
    seq(|es|, i requires 0 <= i < |es| => Item(es[i].msg, es[i].id))
  }

  function ItemMessages(items: seq<Item>): (ms: seq<Message>)
    ensures |ms| == |items|
  {
    seq(|items|, i requires 0 <= i < |items| => items[i].message)
  }

  // ----- The head and the leaf

  function SystemEnd(es: seq<Entry>, i: nat): (end: nat)
    requires i <= |es|
    ensures i <= end <= |es| && forall k :: i <= k < end ==> es[k].msg.role == System
    ensures end < |es| ==> es[end].msg.role != System
    decreases |es| - i
  {
    if i < |es| && es[i].msg.role == System then SystemEnd(es, i + 1) else i
  }

  function ReminderEnd(es: seq<Entry>, i: nat): (end: nat)
    requires i <= |es|
    ensures i <= end <= |es| && forall k :: i <= k < end ==> IsReminder(es[k].msg)
    ensures end < |es| ==> !IsReminder(es[end].msg)
    decreases |es| - i
  {
    if i < |es| && IsReminder(es[i].msg) then ReminderEnd(es, i + 1) else i
  }

  /** Where the system messages and the reminders after them end. */
  function HeadEnd(es: seq<Entry>): (head: nat)
    ensures head <= |es| && forall k :: 0 <= k < head ==> es[k].msg.role == System || IsReminder(es[k].msg)
  {
    ReminderEnd(es, SystemEnd(es, 0))
  }

  /** The head is all the system messages in front and all the reminders after
      them, and no more. */
  lemma HeadIsMaximal(es: seq<Entry>) returns (systems: nat)
    ensures systems <= HeadEnd(es) && forall k :: 0 <= k < systems ==> es[k].msg.role == System
    ensures systems < |es| ==> es[systems].msg.role != System
    ensures forall k :: systems <= k < HeadEnd(es) ==> IsReminder(es[k].msg)
    ensures HeadEnd(es) < |es| ==> !IsReminder(es[HeadEnd(es)].msg)
  {
    hide IsReminder;
    systems := SystemEnd(es, 0);
  }

  /** The first entry from `i` on with the given ID. */
  function LeafIndex(es: seq<Entry>, i: nat, leaf: string): (at: Option<nat>)
    requires i <= |es|
    ensures at.Some? ==> i <= at.value < |es| && es[at.value].id == leaf
    ensures at.None? ==> forall k :: i <= k < |es| ==> es[k].id != leaf
    decreases |es| - i
  {
    if i == |es| then None
    else if es[i].id == leaf then Some(i)
    else LeafIndex(es, i + 1, leaf)
  }

  method FindHead(entries: seq<Entry>) returns (reminderEnd: nat)
    ensures reminderEnd == HeadEnd(entries)
  {
    var systemEnd := 0;
    while systemEnd < |entries| && entries[systemEnd].msg.role == System
      invariant systemEnd <= |entries| && SystemEnd(entries, systemEnd) == SystemEnd(entries, 0)
    {
      systemEnd := systemEnd + 1;
    }
    reminderEnd := systemEnd;
    while reminderEnd < |entries| && IsReminder(entries[reminderEnd].msg)
      invariant systemEnd <= reminderEnd <= |entries|
      invariant ReminderEnd(entries, reminderEnd) == ReminderEnd(entries, systemEnd)
    {
      reminderEnd := reminderEnd + 1;
    }
  }

  // ----- Applying a record

  /** The history once the entries up to `leafIndex` are replaced. */
  function Applied(r: Record, es: seq<Entry>, leafIndex: nat): seq<Message>
    requires leafIndex < |es|
  {
    Msgs(es[..HeadEnd(es)]) + [SummaryMessage(r.summaryText)] + Msgs(es[leafIndex + 1..])
  }

  lemma AppliedTells(r: Record, es: seq<Entry>, j: nat)
    requires j < |es|
    ensures HeadEnd(es) < |Applied(r, es, j)| && Tells(Applied(r, es, j)[HeadEnd(es)], r.summaryText)
  {
    hide Tells, SummaryMessage, HeadEnd;
    SummaryTells(r.summaryText);
  }

  method ApplyCompaction(record: Record, entries: seq<Entry>) returns (compacted: seq<Message>)
    ensures compacted ==
      match LeafIndex(entries, HeadEnd(entries), record.leaf) {
        case None => Msgs(entries)
        case Some(j) => Applied(record, entries, j)
      }
    ensures LeafIndex(entries, HeadEnd(entries), record.leaf).Some? ==>
      HeadEnd(entries) < |compacted| && Tells(compacted[HeadEnd(entries)], record.summaryText)
  {
    hide HeadEnd, SummaryMessage, Tells;
    var reminderEnd := FindHead(entries);
    var leafIndex := reminderEnd;
    while leafIndex < |entries| && entries[leafIndex].id != record.leaf
      invariant reminderEnd <= leafIndex <= |entries|
      invariant LeafIndex(entries, leafIndex, record.leaf) == LeafIndex(entries, reminderEnd, record.leaf)
    {
      leafIndex := leafIndex + 1;
    }
    if leafIndex == |entries| {
      return Msgs(entries);
    }
    compacted := [];
    for i := 0 to reminderEnd
      invariant compacted == Msgs(entries[..i])
    {
      assert Msgs(entries[..i + 1]) == Msgs(entries[..i]) + [entries[i].msg];
      compacted := compacted + [entries[i].msg];
    }
    compacted := compacted + [SummaryMessage(record.summaryText)];
    var afterLeafStart := leafIndex + 1;
    for i := afterLeafStart to |entries|
      invariant compacted == Msgs(entries[..reminderEnd]) + [SummaryMessage(record.summaryText)] + Msgs(entries[afterLeafStart..i])
    {
      assert Msgs(entries[afterLeafStart..i + 1]) == Msgs(entries[afterLeafStart..i]) + [entries[i].msg];
      compacted := compacted + [entries[i].msg];
    }
    assert entries[afterLeafStart..|entries|] == entries[leafIndex + 1..];
    AppliedTells(record, entries, leafIndex);
  }

  // ----- Planning

  /** What there is to summarise: the old summary, if its leaf is found, and
      the conversation after it. */
  function ItemsFor(existing: Option<Record>, es: seq<Entry>): seq<Item> {
    match OldLeaf(existing, es)
    case None => ItemsOf(Real(es[HeadEnd(es)..]))
    case Some(j) =>
      [Item(SummaryMessage(existing.value.summaryText), existing.value.leaf)] + ItemsOf(Real(es[j + 1..]))
  }

  function OldLeaf(existing: Option<Record>, es: seq<Entry>): (at: Option<nat>)
    ensures at.Some? ==> existing.Some? && HeadEnd(es) <= at.value < |es|
  {
    if existing.None? then None else LeafIndex(es, HeadEnd(es), existing.value.leaf)
  }

  method RawCompactionItems(entries: seq<Entry>, start: nat) returns (items: seq<Item>)
    requires start <= |entries|
    ensures items == ItemsOf(Real(entries[start..]))
  {
    items := [];
    ghost var rest := entries[start..];
    for i := start to |entries|
      invariant items == ItemsOf(Real(rest[..i - start]))
    {
      assert rest[..i + 1 - start][..i - start] == rest[..i - start];
      if entries[i].msg.synthetic || IsReminder(entries[i].msg) {
        continue;
      }
      items := items + [Item(entries[i].msg, entries[i].id)];
    }
    assert rest[..|rest|] == rest;
  }

  method CompactionItems(entries: seq<Entry>, reminderEnd: nat, existing: Option<Record>) returns (items: seq<Item>)
    requires reminderEnd == HeadEnd(entries)
    ensures items == ItemsFor(existing, entries)
  {
    hide HeadEnd, SummaryMessage, IsReminder;
    if existing.None? {
      items := RawCompactionItems(entries, reminderEnd);
      return;
    }
    var previous := existing.value;
    var first := Item(SummaryMessage(previous.summaryText), previous.leaf);
    items := [first];
    var afterExisting := false;
    ghost var at := OldLeaf(existing, entries);
    for i := reminderEnd to |entries|
      invariant !afterExisting ==> items == [first] && LeafIndex(entries, i, previous.leaf) == at
      invariant afterExisting ==> at.Some? && at.value < i && items == [first] + ItemsOf(Real(entries[at.value + 1..i]))
    {
      if !afterExisting {
        afterExisting := entries[i].id == previous.leaf;
        assert entries[i + 1..i + 1] == [];
        continue;
      }
      assert entries[at.value + 1..i + 1][..i - at.value - 1] == entries[at.value + 1..i];
      if entries[i].msg.synthetic || IsReminder(entries[i].msg) {
        continue;
      }
      items := items + [Item(entries[i].msg, entries[i].id)];
    }
    if !afterExisting {
      items := RawCompactionItems(entries, reminderEnd);
      return;
    }
    assert entries[at.value + 1..|entries|] == entries[at.value + 1..];
  }

  lemma TailOfLast(es: seq<Entry>, p: nat)
    requires p < |es|
    ensures es[p..] == es[..|es| - 1][p..] + [es[|es| - 1]]
  {
  }

  /** The `k`-th real message and what is real before and after it. */
  lemma {:induction false} RealCut(es: seq<Entry>, k: nat) returns (p: nat)
    requires 0 < k <= |Real(es)|
    ensures p < |es| && !Skipped(es[p]) && es[p] == Real(es)[k - 1]
    ensures Real(es[..p + 1]) == Real(es)[..k] && Real(es[p + 1..]) == Real(es)[k..]
  {
    var front, last := es[..|es| - 1], es[|es| - 1];
    if !Skipped(last) && k == |Real(es)| {
      p := |es| - 1;
      assert es[..p + 1] == es && es[p + 1..] == [];
    } else {
      p := RealCut(front, k);
      assert es[..p + 1] == front[..p + 1];
      var tail := front[p + 1..];
      TailOfLast(es, p + 1);
      assert (tail + [last])[..|tail|] == tail;
    }
  }

  ghost predicate DistinctIds(es: seq<Entry>) {
    forall i, j :: 0 <= i < j < |es| ==> es[i].id != es[j].id
  }

  lemma {:induction false} LeafIndexIs(es: seq<Entry>, i: nat, j: nat)
    requires DistinctIds(es) && i <= j < |es|
    ensures LeafIndex(es, i, es[j].id) == Some(j)
    decreases j - i
  {
    if i < j {
      LeafIndexIs(es, i + 1, j);
    }
  }

  lemma RawLeaf(es: seq<Entry>, start: nat, split: nat) returns (j: nat)
    requires DistinctIds(es) && start <= |es| && 0 < split <= |Real(es[start..])|
    ensures start <= j < |es| && LeafIndex(es, start, Real(es[start..])[split - 1].id) == Some(j)
    ensures Real(es[start..j + 1]) == Real(es[start..])[..split] && Real(es[j + 1..]) == Real(es[start..])[split..]
  {
    hide Real;
    var p := RealCut(es[start..], split);
    j := start + p;
    LeafIndexIs(es, start, j);
    assert es[start..][..p + 1] == es[start..j + 1] && es[start..][p + 1..] == es[j + 1..];
  }

  lemma LeafIndexFrom(es: seq<Entry>, i: nat, k: nat, leaf: string)
    requires DistinctIds(es) && i <= k <= |es| && LeafIndex(es, k, leaf).Some?
    ensures LeafIndex(es, i, leaf) == LeafIndex(es, k, leaf)
  {
    LeafIndexIs(es, i, LeafIndex(es, k, leaf).value);
  }

  lemma ItemsSliced(es: seq<Entry>, i: nat, j: nat)
    requires i <= j <= |es|
    ensures ItemMessages(ItemsOf(es)[i..j]) == Msgs(es[i..j])
    ensures j > 0 ==> ItemsOf(es)[j - 1].leafId == es[j - 1].id
  {
  }

  lemma ItemsAfterFirst(first: Item, items: seq<Item>, split: nat)
    requires 0 < split <= |items| + 1
    ensures ([first] + items)[split..] == items[split - 1..|items|] && ([first] + items)[1..split] == items[0..split - 1]
    ensures ([first] + items)[split - 1] == if split == 1 then first else items[split - 2]
  {
  }

  /** Where the `split`-th item ends: its leaf is found at `j`, and what is
      real after `j` are exactly the items that were left. */
  lemma PlanLeaf(existing: Option<Record>, es: seq<Entry>, split: nat) returns (j: nat)
    requires DistinctIds(es) && 0 < split <= |ItemsFor(existing, es)|
    ensures var items := ItemsFor(existing, es);
      && HeadEnd(es) <= j < |es| && LeafIndex(es, HeadEnd(es), items[split - 1].leafId) == Some(j)
      && ItemMessages(items[split..]) == Msgs(Real(es[j + 1..]))
    ensures var items := ItemsFor(existing, es);
      match OldLeaf(existing, es) {
        case None => ItemMessages(items[..split]) == Msgs(Real(es[HeadEnd(es)..j + 1]))
        case Some(was) => was <= j && ItemMessages(items[1..split]) == Msgs(Real(es[was + 1..j + 1]))
      }
  {
    hide Real, HeadEnd, SummaryMessage, Skipped, DistinctIds, LeafIndex, ItemsOf, ItemMessages, Msgs;
    var items := ItemsFor(existing, es);
    match OldLeaf(existing, es)
    case None =>
      var talk := Real(es[HeadEnd(es)..]);
      j := RawLeaf(es, HeadEnd(es), split);
      ItemsSliced(talk, 0, split);
      ItemsSliced(talk, split, |talk|);
      assert items[..split] == items[0..split] && items[split..] == items[split..|items|];
      assert talk[..split] == talk[0..split] && talk[split..] == talk[split..|talk|];
    case Some(was) =>
      var talk := Real(es[was + 1..]);
      ItemsAfterFirst(items[0], ItemsOf(talk), split);
      ItemsSliced(talk, 0, split - 1);
      ItemsSliced(talk, split - 1, |talk|);
      if split == 1 {
        j := was;
        assert es[was + 1..was + 1] == [] && talk[0..0] == [] && talk[0..|talk|] == talk;
        NothingReal();
      } else {
        j := RawLeaf(es, was + 1, split - 1);
        LeafIndexFrom(es, HeadEnd(es), was + 1, es[j].id);
        assert talk[..split - 1] == talk[0..split - 1] && talk[split - 1..] == talk[split - 1..|talk|];
      }
  }

  lemma NothingReal()
    ensures Real([]) == []
  {
  }

  /** There is a safe cut with a tail behind it that keeps the summarised part small
      enough, or just one message. */
  ghost predicate Plannable(size: OutputSize, ms: seq<Message>) {
    || |ms| == 1
    || exists i :: 0 < i < |ms| && SafeAt(ms, i) && (i == 1 || 4 * Singles(size, ms[..i]) <= 3 * Estimate(size, ms))
  }

  /** buildCompactionPlan */
  method BuildCompactionPlan(size: OutputSize, entries: seq<Entry>, reminderEnd: nat, existing: Option<Record>)
    returns (plan: Plan)
    requires reminderEnd == HeadEnd(entries)
    ensures plan.toSummarize != [] ==> PlanFits(size, plan, ItemsFor(existing, entries))
    ensures plan.toSummarize != [] <==> Plannable(size, ItemMessages(ItemsFor(existing, entries)))
  {
    hide HeadEnd, ItemsFor, SafeAt, Estimate, Singles;
    var items := CompactionItems(entries, reminderEnd, existing);
    if |items| == 0 {
      return Plan([], [], "");
    }
    var messages := ItemMessages(items);
    var split := SplitForRecentTail(size, messages);
    if split <= 0 {
      return Plan([], [], "");
    }
    plan := Plan(messages[..split], messages[split..], items[split - 1].leafId);
    assert ItemMessages(items[..split]) == messages[..split] && ItemMessages(items[split..]) == messages[split..];
    assert SplitOf(plan, items, split);
    assert plan.toSummarize + plan.tail == messages;
  }

  /** The plan cuts `items` in two at a safe point. */
  ghost predicate SplitOf(plan: Plan, items: seq<Item>, split: nat) {
    && 0 < split <= |items|
    && plan.toSummarize == ItemMessages(items[..split]) && plan.tail == ItemMessages(items[split..])
    && plan.leaf == items[split - 1].leafId
    && (|items| > 1 ==> split < |items| && SafeAt(ItemMessages(items), split))
  }

  ghost predicate PlanFits(size: OutputSize, plan: Plan, items: seq<Item>) {
    && (exists split: nat :: SplitOf(plan, items, split))
    && plan.toSummarize + plan.tail == ItemMessages(items)
    && (|items| > 1 ==>
          && plan.tail != []
          && (|plan.toSummarize| > 1 ==>
                4 * Estimate(size, plan.toSummarize) <= 3 * Estimate(size, ItemMessages(items))))
  }

  // ----- Tool-closure

  /** Synthetic messages are the framework's own user messages. */
  predicate SyntheticAreUser(es: seq<Entry>) {
    forall e :: e in es && e.msg.synthetic ==> e.msg.role == User
  }

  /** Leaving out user messages changes nothing about the open calls. */
  lemma {:induction false} RealScan(pending: set<string>, es: seq<Entry>)
    requires SyntheticAreUser(es) && Scan(pending, Msgs(es)).Some?
    ensures Scan(pending, Msgs(Real(es))) == Scan(pending, Msgs(es))
  {
    if es != [] {
      var front, last := es[..|es| - 1], es[|es| - 1];
      assert Msgs(es)[..|es| - 1] == Msgs(front);
      RealScan(pending, front);
      assert last in es;
      if !Skipped(last) {
        assert Msgs(Real(front) + [last]) == Msgs(Real(front)) + [last.msg];
        ScanSnoc(pending, Msgs(Real(front)), last.msg);
      }
    }
  }

  /** System and user messages leave no call open. */
  lemma {:induction false} HeadScan(es: seq<Entry>, head: nat)
    requires head <= |es| && Scan({}, Msgs(es)).Some?
    requires forall k :: 0 <= k < head ==> es[k].msg.role == System || es[k].msg.role == User
    ensures ToolClosed(Msgs(es[..head]))
  {
    if head > 0 {
      HeadScan(es, head - 1);
      assert Msgs(es[..head])[..head - 1] == Msgs(es[..head - 1]);
    }
  }

  lemma MsgsCut(es: seq<Entry>, i: nat, j: nat)
    requires i <= j <= |es|
    ensures Msgs(es)[i..j] == Msgs(es[i..j]) && Msgs(es)[..j] == Msgs(es[..j]) && Msgs(es)[j..] == Msgs(es[j..])
  {
  }

  /** The conversation after a closed cut is closed, and so is what is real of it. */
  lemma RealClosed(es: seq<Entry>, i: nat)
    requires SyntheticAreUser(es) && ToolClosed(Msgs(es)) && i <= |es| && ToolClosed(Msgs(es[..i]))
    ensures ToolClosed(Msgs(es[i..])) && ToolClosed(Msgs(Real(es[i..])))
  {
    MsgsCut(es, i, |es|);
    MsgsCut(es, i, i);
    ClosedCut(Msgs(es), i);
    RealScan({}, es[i..]);
  }

  /** A cut after a closed stretch of the real conversation is closed. */
  lemma CutClosed(es: seq<Entry>, i: nat, j: nat)
    requires SyntheticAreUser(es) && ToolClosed(Msgs(es)) && i <= j <= |es|
    requires ToolClosed(Msgs(es[..i])) && ToolClosed(Msgs(Real(es[i..j])))
    ensures ToolClosed(Msgs(es[..j]))
  {
    MsgsCut(es, i, j);
    MsgsCut(es, i, i);
    ClosedPrefixReads(Msgs(es), j);
    assert Msgs(es[..j]) == Msgs(es[..i]) + Msgs(es[i..j]);
    ScanConcat({}, Msgs(es[..i]), Msgs(es[i..j]));
    RealScan({}, es[i..j]);
  }

  /** The record's leaf, if it is found, ends a tool-closed part of the history. */
  ghost predicate Fits(r: Record, es: seq<Entry>) {
    var at := LeafIndex(es, HeadEnd(es), r.leaf);
    at.Some? ==> ToolClosed(Msgs(es[..at.value + 1]))
  }

  lemma HeadClosed(es: seq<Entry>)
    requires ToolClosed(Msgs(es))
    ensures ToolClosed(Msgs(es[..HeadEnd(es)]))
  {
    HeadScan(es, HeadEnd(es));
  }

  lemma ThreeClosed(a: seq<Message>, text: string, b: seq<Message>)
    requires ToolClosed(a) && ToolClosed(b)
    ensures ToolClosed(a + [SummaryMessage(text)] + b)
  {
    SummaryFirst(text, b);
    ScanConcat({}, a, [SummaryMessage(text)] + b);
    assert a + [SummaryMessage(text)] + b == a + ([SummaryMessage(text)] + b);
  }

  /** Applying a fitting record to a tool-closed history leaves it tool-closed. */
  lemma AppliedClosed(r: Record, es: seq<Entry>, j: nat)
    requires ToolClosed(Msgs(es)) && SyntheticAreUser(es) && Fits(r, es)
    requires LeafIndex(es, HeadEnd(es), r.leaf) == Some(j)
    ensures ToolClosed(Applied(r, es, j))
  {
    hide HeadEnd, ToolClosed, Real, SummaryMessage, SyntheticAreUser, LeafIndex;
    HeadClosed(es);
    RealClosed(es, j + 1);
    ThreeClosed(Msgs(es[..HeadEnd(es)]), r.summaryText, Msgs(es[j + 1..]));
  }

  lemma {:induction false} LeafIndexGrows(es: seq<Entry>, more: seq<Entry>, i: nat, leaf: string)
    requires i <= |es| && LeafIndex(es, i, leaf).Some?
    ensures LeafIndex(es + more, i, leaf) == LeafIndex(es, i, leaf)
    decreases |es| - i
  {
    if es[i].id != leaf {
      LeafIndexGrows(es, more, i + 1, leaf);
    }
  }

  lemma {:induction false} HeadGrows(es: seq<Entry>, more: seq<Entry>, i: nat)
    requires i <= |es|
    ensures SystemEnd(es, i) < |es| ==> SystemEnd(es + more, i) == SystemEnd(es, i)
    ensures ReminderEnd(es, i) < |es| ==> ReminderEnd(es + more, i) == ReminderEnd(es, i)
    decreases |es| - i
  {
    if i < |es| {
      HeadGrows(es, more, i + 1);
    }
  }

  /** However much the thread grows, a record keeps fitting and its leaf stays
      where it was. */
  lemma FitsLater(r: Record, es: seq<Entry>, more: seq<Entry>)
    requires Fits(r, es) && LeafIndex(es, HeadEnd(es), r.leaf).Some?
    ensures Fits(r, es + more)
    ensures HeadEnd(es + more) == HeadEnd(es)
    ensures LeafIndex(es + more, HeadEnd(es + more), r.leaf) == LeafIndex(es, HeadEnd(es), r.leaf)
  {
    hide IsReminder, ToolClosed, Msgs;
    var j := LeafIndex(es, HeadEnd(es), r.leaf).value;
    HeadGrows(es, more, 0);
    HeadGrows(es, more, SystemEnd(es, 0));
    LeafIndexGrows(es, more, HeadEnd(es), r.leaf);
    assert (es + more)[..j + 1] == es[..j + 1];
  }

  /** Splitting a tool-closed list of items as planned gives two closed lists. */
  lemma SplitClosed(plan: Plan, items: seq<Item>, split: nat)
    requires SplitOf(plan, items, split) && ToolClosed(ItemMessages(items))
    ensures ToolClosed(plan.toSummarize) && ToolClosed(plan.tail)
  {
    var ms := ItemMessages(items);
    assert ItemMessages(items[..split]) == ms[..split] && ItemMessages(items[split..]) == ms[split..];
    if |items| > 1 {
      SafeIsClosed(ms, split);
    } else {
      assert ms[..split] == ms && ms[split..] == [];
    }
  }

  lemma ItemsClosed(existing: Option<Record>, es: seq<Entry>)
    requires ToolClosed(Msgs(es)) && SyntheticAreUser(es) && (existing.Some? ==> Fits(existing.value, es))
    ensures ToolClosed(ItemMessages(ItemsFor(existing, es)))
  {
    match OldLeaf(existing, es)
    case None =>
      HeadClosed(es);
      RealClosed(es, HeadEnd(es));
      assert ItemMessages(ItemsFor(existing, es)) == Msgs(Real(es[HeadEnd(es)..]));
    case Some(j) =>
      RealClosed(es, j + 1);
      SummaryFirst(existing.value.summaryText, Msgs(Real(es[j + 1..])));
      assert ItemMessages(ItemsFor(existing, es)) ==
        [SummaryMessage(existing.value.summaryText)] + Msgs(Real(es[j + 1..]));
  }

  lemma AfterFirst(plan: Plan, items: seq<Item>, split: nat, text: string)
    requires SplitOf(plan, items, split) && items[0].message == SummaryMessage(text) && ToolClosed(plan.toSummarize)
    ensures ToolClosed(ItemMessages(items[1..split]))
  {
    FirstIsSafe(plan.toSummarize);
    ClosedCut(plan.toSummarize, 1);
    assert plan.toSummarize[1..] == ItemMessages(items[1..split]);
  }

  /** The record of a plan fits the history it was made of. */
  lemma PlannedFits(existing: Option<Record>, es: seq<Entry>, plan: Plan, split: nat, text: string)
    requires DistinctIds(es) && ToolClosed(Msgs(es)) && SyntheticAreUser(es)
    requires existing.Some? ==> Fits(existing.value, es)
    requires SplitOf(plan, ItemsFor(existing, es), split)
    ensures Fits(Record(text, plan.leaf), es) && ToolClosed(plan.toSummarize) && ToolClosed(plan.tail)
  {
    hide HeadEnd, ToolClosed, Real, SummaryMessage, SyntheticAreUser, DistinctIds, LeafIndex, SafeAt;
    var items := ItemsFor(existing, es);
    var j := PlanLeaf(existing, es, split);
    ItemsClosed(existing, es);
    SplitClosed(plan, items, split);
    match OldLeaf(existing, es)
    case None =>
      HeadClosed(es);
      CutClosed(es, HeadEnd(es), j + 1);
    case Some(was) =>
      AfterFirst(plan, items, split, existing.value.summaryText);
      CutClosed(es, was + 1, j + 1);
  }

  // ----- Compacting

  /** What compacting `es` with `plan` and the summary `text` gives back. */
  function Compacted(es: seq<Entry>, plan: Plan, text: string): seq<Message> {
    Msgs(es[..HeadEnd(es)]) + [SummaryMessage(text)] + plan.tail
  }

  /** `saved` stands for a part of `es` that ends at `j`, not before the part
      that `existing` stood for; `compacted` is the head, the summary and what
      is real after `j`. */
  ghost predicate Replaces(
    saved: Record, existing: Option<Record>, es: seq<Entry>, j: nat, compacted: seq<Message>)
  {
    && LeafIndex(es, HeadEnd(es), saved.leaf) == Some(j)
    && compacted == Msgs(es[..HeadEnd(es)]) + [SummaryMessage(saved.summaryText)] + Msgs(Real(es[j + 1..]))
    && (OldLeaf(existing, es).Some? ==> OldLeaf(existing, es).value <= j)
  }

  /** Reading the saved record back gives what the compaction returned, but for
      the synthetic messages and reminders after the leaf. */
  lemma ReappliedIsReturned(saved: Record, existing: Option<Record>, es: seq<Entry>, j: nat, compacted: seq<Message>)
    returns (before: seq<Message>)
    requires Replaces(saved, existing, es, j, compacted)
    ensures compacted == before + Msgs(Real(es[j + 1..]))
    ensures Applied(saved, es, j) == before + Msgs(es[j + 1..])
  {
    before := Msgs(es[..HeadEnd(es)]) + [SummaryMessage(saved.summaryText)];
    assert compacted == before + Msgs(Real(es[j + 1..]));
  }

  /** performCompaction: plan, summarise, save the record. Whatever the
      summarising model answers, the history that comes back is tool-closed when
      the given one is; so is everything the model is asked about, unless that is
      a first message with open calls, alone. */
  method PerformCompaction(
    provider: Summariser, size: OutputSize, entries: seq<Entry>, existing: Option<Record>, rounds: nat)
    returns (compacted: seq<Message>, saved: Option<Record>, ghost asked: seq<seq<Message>>)
    requires DistinctIds(entries)
    ensures saved.None? ==> compacted == Msgs(entries)
    ensures saved.Some? ==> Plannable(size, ItemMessages(ItemsFor(existing, entries)))
    ensures Plannable(size, ItemMessages(ItemsFor(existing, entries))) && rounds > 0 && Willing(provider) ==> saved.Some?
    ensures saved.Some? ==>
      && HeadEnd(entries) < |compacted| && Tells(compacted[HeadEnd(entries)], saved.value.summaryText)
      && exists c: nat, ms :: Asked(provider, c, ms) == Summary(saved.value.summaryText)
    ensures saved.Some? ==> exists j: nat :: Replaces(saved.value, existing, entries, j, compacted)
    ensures saved.Some? ==> exists plan :: (
      && PlanFits(size, plan, ItemsFor(existing, entries))
      && plan.leaf == saved.value.leaf && compacted == Compacted(entries, plan, saved.value.summaryText))
    ensures Sound(entries, existing) ==> ToolClosed(compacted) && (saved.Some? ==> Fits(saved.value, entries))
    ensures Sound(entries, existing) ==>
      (AllClosed(asked) <==> Whole(ItemMessages(ItemsFor(existing, entries)), asked))
  {
    hide HeadEnd, ItemsFor, SafeAt, Estimate, Summarisable, PlanFits, Replaces, ToolClosed, Fits, SummaryMessage, Rounds,
      Real, Sound, OpensNothing, CutsAStep, Bounded, RawTokens, Plannable, Tells, Asked;
    compacted, saved, asked := Msgs(entries), None, [];
    if Sound(entries, existing) {
      SoundIsClosed(entries, existing);
    }
    var reminderEnd := FindHead(entries);
    var plan := BuildCompactionPlan(size, entries, reminderEnd, existing);
    if |plan.toSummarize| == 0 {
      return;
    }
    var r, working;
    ghost var steps;
    r, working, steps, asked := GenerateSummary(provider, plan.toSummarize, rounds, size, 0);
    ghost var split := ThePlanSplits(size, plan, ItemsFor(existing, entries));
    if Sound(entries, existing) {
      PlanIsSound(entries, existing, plan, split);
    }
    if !r.Summarised? {
      return;
    }
    saved := Some(Record(r.text, plan.leaf));
    compacted := Compacted(entries, plan, r.text);
    CompactedTells(entries, plan, r.text);
    ghost var j := PlanReplaces(existing, entries, plan, split, r.text);
    if Sound(entries, existing) {
      CompactedClosed(existing, entries, plan, split, r.text);
    }
  }

  /** Summarises whatever it is asked about first. */
  ghost predicate Willing(provider: Summariser) {
    forall ms :: Asked(provider, 0, ms).Summary?
  }

  lemma CompactedTells(es: seq<Entry>, plan: Plan, text: string)
    ensures HeadEnd(es) < |Compacted(es, plan, text)| && Tells(Compacted(es, plan, text)[HeadEnd(es)], text)
  {
    hide Tells, SummaryMessage, HeadEnd;
    SummaryTells(text);
  }

  /** A tool-closed history, and a record on disk that fits it. */
  ghost predicate Sound(es: seq<Entry>, existing: Option<Record>) {
    && DistinctIds(es) && ToolClosed(Msgs(es)) && SyntheticAreUser(es)
    && (existing.Some? ==> Fits(existing.value, es))
  }

  lemma SoundIsClosed(es: seq<Entry>, existing: Option<Record>)
    requires Sound(es, existing)
    ensures ToolClosed(Msgs(es))
  {
  }

  lemma ThePlanSplits(size: OutputSize, plan: Plan, items: seq<Item>) returns (split: nat)
    requires PlanFits(size, plan, items)
    ensures SplitOf(plan, items, split)
  {
    split :| SplitOf(plan, items, split);
  }

  lemma PlanIsSound(es: seq<Entry>, existing: Option<Record>, plan: Plan, split: nat)
    requires Sound(es, existing) && SplitOf(plan, ItemsFor(existing, es), split)
    ensures ToolClosed(plan.toSummarize)
    ensures var ms := ItemMessages(ItemsFor(existing, es)); ms != [] && plan.toSummarize != [] && ms[0] == plan.toSummarize[0]
  {
    hide HeadEnd, ItemsFor, SafeAt, ToolClosed, Real, DistinctIds, SyntheticAreUser, LeafIndex;
    PlannedFits(existing, es, plan, split, "");
  }

  lemma PlanReplaces(existing: Option<Record>, es: seq<Entry>, plan: Plan, split: nat, text: string) returns (j: nat)
    requires DistinctIds(es) && SplitOf(plan, ItemsFor(existing, es), split)
    ensures Replaces(Record(text, plan.leaf), existing, es, j, Compacted(es, plan, text))
  {
    hide HeadEnd, ItemsFor, SafeAt, Real, DistinctIds, LeafIndex, SummaryMessage, ItemMessages;
    j := PlanLeaf(existing, es, split);
  }

  lemma CompactedClosed(existing: Option<Record>, es: seq<Entry>, plan: Plan, split: nat, text: string)
    requires Sound(es, existing) && SplitOf(plan, ItemsFor(existing, es), split)
    ensures ToolClosed(Compacted(es, plan, text)) && Fits(Record(text, plan.leaf), es)
  {
    hide HeadEnd, ItemsFor, SafeAt, Real, DistinctIds, LeafIndex, SummaryMessage, ToolClosed, SyntheticAreUser;
    PlannedFits(existing, es, plan, split, text);
    HeadClosed(es);
    ThreeClosed(Msgs(es[..HeadEnd(es)]), text, plan.tail);
  }

  /** The histories that the turn loop reads from disk meet the demands made
      here: their IDs are distinct, and tool-closed chains give tool-closed
      entries. */
  lemma ChainsAreHistories(m: map<string, Stored>, leaf: string, ids: seq<string>, es: seq<Entry>)
    requires IsChain(m, leaf, ids) && |es| == |ids| && forall i :: 0 <= i < |ids| ==> es[i] == EntryOf(m, ids[i])
    ensures DistinctIds(es) && Msgs(es) == MessagesOf(m, ids)
  {
    forall i, j | 0 <= i < j < |es|
      ensures es[i].id != es[j].id
    {
      ChainDistinct(m, leaf, ids, i, j);
    }
  }

  /** The history as the record on disk, if there is one, presents it. */
  function Presented(existing: Option<Record>, es: seq<Entry>): seq<Message> {
    match OldLeaf(existing, es)
    case None => Msgs(es)
    case Some(j) => Applied(existing.value, es, j)
  }

  /** The first compaction happens earlier than the later ones. Go's division
      truncates, which makes no difference here: no count is below one. */
  function TokenLimit(existing: Option<Record>, inputLimit: int): int {
    if existing.Some? then inputLimit else inputLimit * 90 / 100
  }

  /** maybeCompact: the history that the model is called with. A limit of zero
      stands for a model that nothing is known about. */
  method MaybeCompact(
    provider: Summariser, size: OutputSize, inputLimit: int, entries: seq<Entry>, existing: Option<Record>,
    usage: nat, rounds: nat)
    returns (history: seq<Message>, saved: Option<Record>)
    requires DistinctIds(entries)
    ensures Sound(entries, existing) ==> ToolClosed(history) && (saved.Some? ==> Fits(saved.value, entries))
    ensures inputLimit == 0 || RealCount(entries) <= 4 ==> history == Msgs(entries) && saved.None?
    ensures inputLimit != 0 && RealCount(entries) > 4 ==>
      var presented := Presented(existing, entries);
      if Counted(size, presented, usage) <= TokenLimit(existing, inputLimit) then history == presented && saved.None?
      else if saved.None? then history == Msgs(entries)
      else exists j: nat :: Replaces(saved.value, existing, entries, j, history)
    ensures saved.Some? ==> HeadEnd(entries) < |history| && Tells(history[HeadEnd(entries)], saved.value.summaryText)
  {
    hide Tells, HeadEnd, ToolClosed, Fits, SummaryMessage, Sound, Applied, Estimate, LeafIndex, Replaces, Counted;
    saved := None;
    if Sound(entries, existing) {
      SoundIsClosed(entries, existing);
    }
    if inputLimit == 0 {
      return Msgs(entries), saved;
    }
    var realCount := CountReal(entries);
    if realCount <= 4 {
      return Msgs(entries), saved;
    }
    ghost var asked;
    if existing.Some? {
      var compacted := ApplyCompaction(existing.value, entries);
      var tokens := CountTokens(size, compacted, usage);
      if tokens <= inputLimit {
        if Sound(entries, existing) && OldLeaf(existing, entries).Some? {
          AppliedSound(entries, existing);
        }
        return compacted, saved;
      }
      history, saved, asked := PerformCompaction(provider, size, entries, existing, rounds);
      return;
    }
    var tokens := CountTokens(size, Msgs(entries), usage);
    if tokens <= inputLimit * 90 / 100 {
      return Msgs(entries), saved;
    }
    history, saved, asked := PerformCompaction(provider, size, entries, existing, rounds);
  }

  lemma AppliedSound(es: seq<Entry>, existing: Option<Record>)
    requires Sound(es, existing) && OldLeaf(existing, es).Some?
    ensures ToolClosed(Applied(existing.value, es, OldLeaf(existing, es).value))
  {
    hide HeadEnd, ToolClosed, LeafIndex, Applied, SyntheticAreUser;
    AppliedClosed(existing.value, es, OldLeaf(existing, es).value);
  }

  /** The messages that count as conversation for the threshold. */
  function RealCount(es: seq<Entry>): nat {
    if es == [] then 0
    else
      var last := es[|es| - 1].msg;
      RealCount(es[..|es| - 1]) + if last.role != System && !IsReminder(last) then 1 else 0
  }

  method CountReal(entries: seq<Entry>) returns (n: nat)
    ensures n == RealCount(entries)
  {
    n := 0;
    for i := 0 to |entries|
      invariant n == RealCount(entries[..i])
    {
      assert entries[..i + 1][..i] == entries[..i];
      if entries[i].msg.role != System && !IsReminder(entries[i].msg) {
        n := n + 1;
      }
    }
    assert entries[..|entries|] == entries;
  }

  /** What follows the last assistant message. */
  function AfterAssistant(ms: seq<Message>): seq<Message> {
    if ms == [] || ms[|ms| - 1].role == Assistant then [] else AfterAssistant(ms[..|ms| - 1]) + [ms[|ms| - 1]]
  }

  /** The last exact count plus an estimate of what came after it, or an
      estimate of everything when there is no count. */
  function Counted(size: OutputSize, ms: seq<Message>, usage: nat): nat {
    if usage > 0 then usage + Estimate(size, AfterAssistant(ms)) else Estimate(size, ms)
  }

  method CountTokens(size: OutputSize, messages: seq<Message>, usage: nat) returns (tokens: nat)
    ensures tokens == Counted(size, messages, usage)
  {
    if usage == 0 {
      tokens := EstimateTokens(size, messages);
      return;
    }
    hide Estimate;
    var i: nat := |messages|;
    while i > 0 && messages[i - 1].role != Assistant
      invariant i <= |messages| && forall k :: i <= k < |messages| ==> messages[k].role != Assistant
    {
      i := i - 1;
    }
    AfterAssistantIs(messages, i);
    tokens := EstimateTokens(size, messages[i..]);
    tokens := usage + tokens;
  }

  lemma {:induction false} AfterAssistantIs(ms: seq<Message>, i: nat)
    requires i <= |ms| && (forall k :: i <= k < |ms| ==> ms[k].role != Assistant)
    requires i > 0 ==> ms[i - 1].role == Assistant
    ensures AfterAssistant(ms) == ms[i..]
  {
    if i < |ms| {
      AfterAssistantIs(ms[..|ms| - 1], i);
    }
  }
}
