/** Batches of the stream log: neighbouring deltas become one chunk, and every
    chunk of the batch carries the offset of the last raw chunk in it. */
module Coalescing {
  import opened Messages
  import opened Accumulator

  predicate Mergeable(a: Chunk, b: Chunk) {
    || (a.TextDelta? && b.TextDelta? && a.id == b.id)
    || (a.ReasoningDelta? && b.ReasoningDelta? && a.id == b.id)
  }

  function Merge(a: Chunk, b: Chunk): Chunk
    requires Mergeable(a, b)
  {
    var meta := if b.meta != "" then b.meta else a.meta;
    if a.TextDelta? then TextDelta(a.id, a.delta + b.delta, meta) else ReasoningDelta(a.id, a.delta + b.delta, meta)
  }

  function Coalesce(chunks: seq<Chunk>): (r: seq<Chunk>)
    ensures |r| <= |chunks| && (r == [] <==> chunks == [])
  {
    if chunks == [] then []
    else
      var before, chunk := Coalesce(chunks[..|chunks| - 1]), chunks[|chunks| - 1];
      if before != [] && Mergeable(before[|before| - 1], chunk)
      then before[..|before| - 1] + [Merge(before[|before| - 1], chunk)]
      else before + [chunk]
  }

  /** For each chunk of the batch the offset of the last raw chunk in it, when
      the first raw chunk has offset `base`. */
  function Offsets(chunks: seq<Chunk>, base: nat): (r: seq<nat>)
    ensures |r| == |Coalesce(chunks)|
  {
    if chunks == [] then []
    else
      var front := chunks[..|chunks| - 1];
      var before, chunk := Coalesce(front), chunks[|chunks| - 1];
      if before != [] && Mergeable(before[|before| - 1], chunk)
      then Offsets(front, base)[..|before| - 1] + [base + |front|]
      else Offsets(front, base) + [base + |front|]
  }

  /** For each chunk of the batch the number of raw chunks up to its end. */
  function Ends(chunks: seq<Chunk>): (r: seq<nat>)
    ensures |r| == |Coalesce(chunks)|
  {
    Offsets(chunks, 1)
  }

  /** One more raw chunk. */
  lemma CoalesceSnoc(chunks: seq<Chunk>, chunk: Chunk, base: nat)
    ensures var before, offsets := Coalesce(chunks), Offsets(chunks, base);
      var n := |before|;
      if n > 0 && Mergeable(before[n - 1], chunk) then
        && Coalesce(chunks + [chunk]) == before[..n - 1] + [Merge(before[n - 1], chunk)]
        && Offsets(chunks + [chunk], base) == offsets[..n - 1] + [base + |chunks|]
      else
        && Coalesce(chunks + [chunk]) == before + [chunk]
        && Offsets(chunks + [chunk], base) == offsets + [base + |chunks|]
  {
    hide Merge, Mergeable, Coalesce, Offsets;
    var longer := chunks + [chunk];
    assert longer[|longer| - 1] == chunk && longer[..|longer| - 1] == chunks;
    LastChunk(longer, base);
  }

  lemma LastChunk(chunks: seq<Chunk>, base: nat)
    requires chunks != []
    ensures var front, chunk := chunks[..|chunks| - 1], chunks[|chunks| - 1];
      var before, offsets := Coalesce(front), Offsets(front, base);
      var n := |before|;
      if n > 0 && Mergeable(before[n - 1], chunk) then
        && Coalesce(chunks) == before[..n - 1] + [Merge(before[n - 1], chunk)]
        && Offsets(chunks, base) == offsets[..n - 1] + [base + |front|]
      else
        && Coalesce(chunks) == before + [chunk]
        && Offsets(chunks, base) == offsets + [base + |front|]
  {
    hide Merge, Mergeable;
  }

  /** coalesceChunkBatch */
  method CoalesceChunkBatch(chunks: seq<Chunk>, baseOffset: nat) returns (coalesced: seq<Chunk>, offsets: seq<nat>)
    ensures coalesced == Coalesce(chunks) && offsets == Offsets(chunks, baseOffset)
  {
    hide Merge, Mergeable, Coalesce, Offsets;
    coalesced, offsets := [], [];
    NothingCoalesced(baseOffset);
    for i := 0 to |chunks|
      invariant coalesced == Coalesce(chunks[..i]) && offsets == Offsets(chunks[..i], baseOffset)
    {
      var chunk := chunks[i];
      var rawOffset := baseOffset + i;
      CoalesceSnoc(chunks[..i], chunk, baseOffset);
      assert chunks[..i + 1] == chunks[..i] + [chunk];
      var n := |coalesced|;
      if n > 0 && Mergeable(coalesced[n - 1], chunk) {
        assert coalesced[n - 1 := Merge(coalesced[n - 1], chunk)] == coalesced[..n - 1] + [Merge(coalesced[n - 1], chunk)];
        assert offsets[n - 1 := rawOffset] == offsets[..n - 1] + [rawOffset];
        coalesced := coalesced[n - 1 := Merge(coalesced[n - 1], chunk)];
        offsets := offsets[n - 1 := rawOffset];
        continue;
      }
      coalesced := coalesced + [chunk];
      offsets := offsets + [rawOffset];
    }
    assert chunks[..|chunks|] == chunks;
  }

  lemma NothingCoalesced(base: nat)
    ensures Coalesce([]) == [] && Offsets([], base) == []
  {
  }

  // ----- Offsets

  /** Strictly increasing, from `lo` on and below `hi`. */
  predicate Increasing(ns: seq<nat>, lo: nat, hi: nat) {
    && (forall j, k :: 0 <= j < k < |ns| ==> ns[j] < ns[k])
    && (forall k :: 0 <= k < |ns| ==> lo <= ns[k] < hi)
  }

  lemma IncreasingSnoc(ns: seq<nat>, n: nat, lo: nat, hi: nat)
    requires Increasing(ns, lo, hi) && lo <= hi && n <= |ns|
    ensures Increasing(ns[..n] + [hi], lo, hi + 1)
  {
  }

  /** Offsets strictly increase, from the first raw chunk's at the least to the
      last raw chunk's. */
  lemma {:induction false} OffsetsIncrease(chunks: seq<Chunk>, base: nat)
    ensures Increasing(Offsets(chunks, base), base, base + |chunks|)
    ensures chunks != [] ==> Offsets(chunks, base)[|Coalesce(chunks)| - 1] == base + |chunks| - 1
  {
    hide Merge, Mergeable, Increasing, Coalesce, Offsets;
    if chunks == [] {
      NothingCoalesced(base);
      NoneIncreasing(base);
    } else {
      var front := chunks[..|chunks| - 1];
      var offsets := Offsets(front, base);
      OffsetsIncrease(front, base);
      if offsets != [] {
        IncreasingSnoc(offsets, |offsets| - 1, base, base + |front|);
      }
      IncreasingSnoc(offsets, |offsets|, base, base + |front|);
      assert offsets[..|offsets|] == offsets;
      LastChunk(chunks, base);
    }
  }

  lemma NoneIncreasing(base: nat)
    ensures Increasing([], base, base)
  {
  }

  /** An offset is the index of the last raw chunk, one before the end. */
  lemma {:induction false} OffsetsShift(chunks: seq<Chunk>, base: nat, k: nat)
    requires k < |Coalesce(chunks)|
    ensures Offsets(chunks, base)[k] + 1 == base + Ends(chunks)[k]
  {
    hide Merge, Mergeable;
    if k < |Coalesce(chunks)| - 1 {
      OffsetsShift(chunks[..|chunks| - 1], base, k);
    }
  }

  lemma EndsIncrease(chunks: seq<Chunk>)
    ensures Increasing(Ends(chunks), 1, 1 + |chunks|)
    ensures chunks != [] ==> Ends(chunks)[|Coalesce(chunks)| - 1] == |chunks|
  {
    OffsetsIncrease(chunks, 1);
  }

  /** No two neighbours could be merged. */
  ghost predicate Settled(r: seq<Chunk>) {
    forall j, k :: 0 <= j < k < |r| && k == j + 1 ==> !Mergeable(r[j], r[k])
  }

  /** Nothing that could be merged is left side by side. */
  lemma {:induction false} FullyMerged(chunks: seq<Chunk>)
    ensures Settled(Coalesce(chunks))
  {
    if chunks != [] {
      var front, chunk := chunks[..|chunks| - 1], chunks[|chunks| - 1];
      var before := Coalesce(front);
      FullyMerged(front);
      hide Merge, Mergeable;
      if |before| > 1 && Mergeable(before[|before| - 1], chunk) {
        MergeKeepsBlock(before[|before| - 2], before[|before| - 1], chunk);
      }
    }
  }

  lemma MergeKeepsBlock(a: Chunk, b: Chunk, c: Chunk)
    requires Mergeable(b, c)
    ensures Mergeable(a, Merge(b, c)) == Mergeable(a, b)
  {
  }

  // ----- Meaning

  /** Two deltas of one block read one after the other are one delta. */
  lemma MergeMeans(s: AccState, a: Chunk, b: Chunk)
    requires Mergeable(a, b)
    ensures AfterChunk(AfterChunk(s, a), b) == AfterChunk(s, Merge(a, b))
  {
    var m := Merge(a, b);
    var active := if a.TextDelta? then s.activeText else s.activeReasoning;
    if a.id in active && active[a.id] < |s.parts| {
      var i := active[a.id];
      DeltasAdd(s.parts[i], a.delta, b.delta);
      assert s.parts[i := WithDelta(s.parts[i], a.delta)][i := WithDelta(WithDelta(s.parts[i], a.delta), b.delta)] ==
        s.parts[i := WithDelta(s.parts[i], a.delta + b.delta)];
    }
    assert PushParts(AfterChunk(s, a), b) == PushParts(s, m);
  }

  lemma DeltasAdd(p: Part, a: string, b: string)
    ensures WithDelta(WithDelta(p, a), b) == WithDelta(p, a + b)
  {
    match p
    case TextPart(_, text, _) => assert text + a + b == text + (a + b);
    case ReasoningPart(_, text, _) => assert text + a + b == text + (a + b);
    case _ =>
  }

  /** Reading the batch is reading the raw chunks, from any state. */
  lemma {:induction false} CoalescedMeans(s: AccState, chunks: seq<Chunk>)
    ensures Accumulate(s, Coalesce(chunks)) == Accumulate(s, chunks)
  {
    hide AfterChunk, Mergeable;
    if chunks != [] {
      var front, chunk := chunks[..|chunks| - 1], chunks[|chunks| - 1];
      var before := Coalesce(front);
      CoalescedMeans(s, front);
      if before != [] && Mergeable(before[|before| - 1], chunk) {
        var head, last := before[..|before| - 1], before[|before| - 1];
        MergeMeans(Accumulate(s, head), last, chunk);
        AccumulateSnoc(s, head, Merge(last, chunk));
      } else {
        AccumulateSnoc(s, before, chunk);
      }
    }
  }

  /** The first `k` chunks of a batch are the batch of the raw chunks up to the
      `k`-th offset. */
  lemma {:induction false} PrefixCoalesced(chunks: seq<Chunk>, k: nat)
    requires 0 < k <= |Coalesce(chunks)|
    ensures 0 < Ends(chunks)[k - 1] <= |chunks|
    ensures Coalesce(chunks[..Ends(chunks)[k - 1]]) == Coalesce(chunks)[..k]
  {
    hide Merge, Mergeable;
    EndsIncrease(chunks);
    if k == |Coalesce(chunks)| {
      assert chunks[..|chunks|] == chunks;
    } else {
      var front := chunks[..|chunks| - 1];
      PrefixCoalesced(front, k);
      assert Coalesce(chunks)[..k] == Coalesce(front)[..k] && Ends(chunks)[k - 1] == Ends(front)[k - 1];
      assert chunks[..Ends(chunks)[k - 1]] == front[..Ends(front)[k - 1]];
    }
  }

  /** So every prefix of a batch means the raw log up to its offset. */
  lemma PrefixMeans(s: AccState, chunks: seq<Chunk>, k: nat)
    requires 0 < k <= |Coalesce(chunks)|
    ensures Ends(chunks)[k - 1] <= |chunks|
    ensures Accumulate(s, Coalesce(chunks)[..k]) == Accumulate(s, chunks[..Ends(chunks)[k - 1]])
  {
    hide Coalesce, Ends;
    PrefixCoalesced(chunks, k);
    CoalescedMeans(s, chunks[..Ends(chunks)[k - 1]]);
  }

  // ----- Clients

  /** One poll: the log was `length` long, and the client took the first
      `taken` chunks of the batch before it lost the connection. */
  datatype Poll = Poll(length: nat, taken: nat)

  /** Where a client stands: the offset it will ask for, and what it knows. */
  datatype Client = Client(offset: nat, state: AccState)

  predicate Possible(log: seq<Chunk>, c: Client, p: Poll) {
    c.offset <= p.length <= |log| && p.taken <= |Coalesce(log[c.offset..p.length])|
  }

  /** The client asks from its offset, reads what it takes, and next time asks
      for the chunk after the last offset it saw. */
  function AfterPoll(log: seq<Chunk>, c: Client, p: Poll): Client
    requires Possible(log, c, p)
  {
    var raw := log[c.offset..p.length];
    if p.taken == 0 then c
    else Client(Offsets(raw, c.offset)[p.taken - 1] + 1, Accumulate(c.state, Coalesce(raw)[..p.taken]))
  }

  ghost predicate Polls(log: seq<Chunk>, start: Client, polls: seq<Poll>, end: Client) {
    if polls == [] then end == start
    else
      var n := |polls| - 1;
      exists c :: Polls(log, start, polls[..n], c) && Possible(log, c, polls[n]) && AfterPoll(log, c, polls[n]) == end
  }

  lemma PollInSync(log: seq<Chunk>, s: AccState, c: Client, p: Poll)
    requires c.offset <= |log| && c.state == Accumulate(s, log[..c.offset]) && Possible(log, c, p)
    ensures var c' := AfterPoll(log, c, p);
      c.offset <= c'.offset <= p.length && c'.state == Accumulate(s, log[..c'.offset])
  {
    hide Coalesce, Ends, Offsets, Accumulate;
    if p.taken > 0 {
      var raw := log[c.offset..p.length];
      PrefixMeans(c.state, raw, p.taken);
      OffsetsShift(raw, c.offset, p.taken - 1);
      EndsIncrease(raw);
      var n := Ends(raw)[p.taken - 1];
      AccumulateConcat(s, log[..c.offset], raw[..n]);
      assert log[..c.offset + n] == log[..c.offset] + raw[..n];
    }
  }

  /** However the log was batched and wherever the client broke off, what it
      knows is exactly the log up to its offset: nothing missed, nothing twice. */
  lemma {:induction false} ClientInSync(log: seq<Chunk>, s: AccState, polls: seq<Poll>, end: Client)
    requires Polls(log, Client(0, s), polls, end)
    ensures end.offset <= |log| && end.state == Accumulate(s, log[..end.offset])
  {
    if polls != [] {
      var n := |polls| - 1;
      var c :| Polls(log, Client(0, s), polls[..n], c) && Possible(log, c, polls[n]) && AfterPoll(log, c, polls[n]) == end;
      ClientInSync(log, s, polls[..n], c);
      PollInSync(log, s, c, polls[n]);
    }
  }

  /** A poll that takes the whole batch brings the client to the end of what the
      log was. */
  lemma WholeBatch(log: seq<Chunk>, c: Client, p: Poll)
    requires Possible(log, c, p) && p.taken == |Coalesce(log[c.offset..p.length])|
    ensures AfterPoll(log, c, p).offset == p.length
  {
    OffsetsIncrease(log[c.offset..p.length], c.offset);
  }

  /** So a client that takes one whole batch of the finished log knows all of it,
      whatever polls it broke off before. */
  lemma ClientCatchesUp(log: seq<Chunk>, s: AccState, polls: seq<Poll>, c: Client, p: Poll)
    requires Polls(log, Client(0, s), polls, c) && Possible(log, c, p)
    requires p.length == |log| && p.taken == |Coalesce(log[c.offset..])|
    ensures AfterPoll(log, c, p) == Client(|log|, Accumulate(s, log))
  {
    hide Coalesce, Accumulate, Polls;
    ClientInSync(log, s, polls, c);
    PollInSync(log, s, c, p);
    assert log[c.offset..|log|] == log[c.offset..] && log[..|log|] == log;
    WholeBatch(log, c, p);
  }
}
