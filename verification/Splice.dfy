/** Replacing stretches of a sequence: one after the other from the back, and
    in one pass from the front. */
module Splice {

  datatype Replacement<T> = Replacement(start: nat, oldLen: nat, newItems: seq<T>)

  /** In bounds, disjoint, and one after the other. */
  predicate OneAfterAnother<T>(n: nat, reps: seq<Replacement<T>>) {
    && (forall i :: 0 <= i < |reps| ==> reps[i].start + reps[i].oldLen <= n)
    && (forall i, j :: 0 <= i < j < |reps| ==> reps[i].start + reps[i].oldLen <= reps[j].start)
  }

  /** One pass over the file: copy the gap, put the new items, skip the old. */
  function Forward<T>(items: seq<T>, reps: seq<Replacement<T>>, pos: nat): seq<T>
    requires OneAfterAnother(|items|, reps) && pos <= |items| && (reps != [] ==> pos <= reps[0].start)
    decreases |reps|
  {
    if reps == [] then items[pos..]
    else
      var r := reps[0];
      items[pos..r.start] + (r.newItems + Forward(items, reps[1..], r.start + r.oldLen))
  }

  function Min(a: nat, b: nat): nat {
    if a < b then a else b
  }

  function SpliceOne<T>(items: seq<T>, r: Replacement<T>): seq<T> {
    items[..Min(r.start, |items|)] + r.newItems + items[Min(Min(r.start, |items|) + r.oldLen, |items|)..]
  }

  /** The replacements from the last to the first. */
  function Backward<T>(items: seq<T>, reps: seq<Replacement<T>>): seq<T>
    decreases |reps|
  {
    if reps == [] then items
    else Backward(SpliceOne(items, reps[|reps| - 1]), reps[..|reps| - 1])
  }

  lemma SuffixInOrder<T>(n: nat, reps: seq<Replacement<T>>, k: nat)
    requires OneAfterAnother(n, reps) && k <= |reps|
    ensures OneAfterAnother(n, reps[k..])
  {
  }

  lemma ForwardFirst<T>(items: seq<T>, reps: seq<Replacement<T>>)
    requires OneAfterAnother(|items|, reps) && reps != [] && OneAfterAnother(|items|, reps[1..])
    ensures var r := reps[0]; var end := r.start + r.oldLen;
      && end <= Boundary(items, reps[1..]) <= |items|
      && Forward(items, reps, r.start) == r.newItems + Forward(items, reps[1..], end)
  {
    var r := reps[0];
    assert reps[1..] != [] ==> reps[1..][0] == reps[1];
    assert items[r.start..r.start] == [];
  }

  lemma SplicedAt<T>(items: seq<T>, b: nat, tail: seq<T>, r: Replacement<T>)
    requires r.start + r.oldLen <= b <= |items|
    ensures SpliceOne(items[..b] + tail, r) == items[..r.start] + (r.newItems + (items[r.start + r.oldLen..b] + tail))
  {
    var out, end := items[..b] + tail, r.start + r.oldLen;
    assert out[..r.start] == items[..r.start];
    assert out[end..] == items[end..b] + tail;
    assert items[..r.start] + r.newItems + out[end..] == items[..r.start] + (r.newItems + out[end..]);
  }

  /** One replacement, in front of those that are already spliced. */
  lemma SpliceStep<T>(items: seq<T>, reps: seq<Replacement<T>>, out: seq<T>)
    requires reps != [] && OneAfterAnother(|items|, reps) && OneAfterAnother(|items|, reps[1..])
    requires var b := Boundary(items, reps[1..]); b <= |items| && out == items[..b] + Forward(items, reps[1..], b)
    ensures reps[0].start <= |items|
    ensures SpliceOne(out, reps[0]) == items[..reps[0].start] + Forward(items, reps, reps[0].start)
  {
    hide Forward, OneAfterAnother, SpliceOne;
    ForwardFirst(items, reps);
    var r, b := reps[0], Boundary(items, reps[1..]);
    ForwardGap(items, reps[1..], r.start + r.oldLen, b);
    SplicedAt(items, b, Forward(items, reps[1..], b), r);
  }

  /** The replacements from `k` on are spliced already. */
  lemma {:induction false} BackwardFrom<T>(items: seq<T>, reps: seq<Replacement<T>>, k: nat, out: seq<T>)
    requires OneAfterAnother(|items|, reps) && k <= |reps| && OneAfterAnother(|items|, reps[k..])
    requires var b := Boundary(items, reps[k..]); b <= |items| && out == items[..b] + Forward(items, reps[k..], b)
    ensures Backward(out, reps[..k]) == Forward(items, reps, 0)
    decreases k
  {
    if k == 0 {
      assert reps[0..] == reps;
      var b := Boundary(items, reps);
      ForwardGap(items, reps, 0, b);
      assert items[0..b] == items[..b];
    } else {
      var r := reps[k - 1];
      SuffixInOrder(|items|, reps, k - 1);
      assert reps[k - 1..][1..] == reps[k..];
      assert reps[..k][..k - 1] == reps[..k - 1];
      SpliceStep(items, reps[k - 1..], out);
      BackwardFrom(items, reps, k - 1, SpliceOne(out, r));
    }
  }

  function Boundary<T>(items: seq<T>, done: seq<Replacement<T>>): nat {
    if done == [] then |items| else done[0].start
  }

  lemma ForwardGap<T>(items: seq<T>, reps: seq<Replacement<T>>, pos: nat, b: nat)
    requires OneAfterAnother(|items|, reps) && b == Boundary(items, reps) && pos <= b <= |items|
    ensures Forward(items, reps, pos) == items[pos..b] + Forward(items, reps, b)
  {
    if reps == [] {
      assert items[pos..] == items[pos..b] + items[b..];
    } else {
      assert items[b..b] == [];
    }
  }

  lemma PrefixInOrder<T>(n: nat, reps: seq<Replacement<T>>, k: nat)
    requires OneAfterAnother(n, reps) && k < |reps|
    ensures reps[k].start <= n && OneAfterAnother(reps[k].start, reps[..k])
  {
  }

  lemma ForwardNext<T>(items: seq<T>, reps: seq<Replacement<T>>, pos: nat)
    requires OneAfterAnother(|items|, reps) && reps != [] && pos <= reps[0].start
    ensures var r := reps[0]; var end := r.start + r.oldLen;
      && end <= |items| && OneAfterAnother(|items|, reps[1..]) && (reps[1..] != [] ==> end <= reps[1..][0].start)
      && Forward(items, reps, pos) == items[pos..r.start] + (r.newItems + Forward(items, reps[1..], end))
  {
  }

  lemma ForwardRest<T>(items: seq<T>, pos: nat, s: nat)
    requires pos <= s <= |items|
    ensures Forward(items[..s], [], pos) == items[pos..s]
  {
    assert items[..s][pos..] == items[pos..s];
  }

  lemma Regrouped<T>(a: seq<T>, b: seq<T>, c: seq<T>, d: seq<T>)
    ensures a + (b + (c + d)) == (a + (b + c)) + d
  {
  }

  /** The pass reaches the `k`-th replacement when everything before it is done, and
      goes on behind what that takes out. */
  lemma {:induction false} ForwardCut<T>(items: seq<T>, reps: seq<Replacement<T>>, pos: nat, k: nat)
    requires OneAfterAnother(|items|, reps) && k < |reps| && pos <= reps[0].start
    requires reps[k].start + reps[k].oldLen <= |items| && OneAfterAnother(reps[k].start, reps[..k])
    requires OneAfterAnother(|items|, reps[k + 1..]) && pos <= reps[k].start
    requires k + 1 < |reps| ==> reps[k].start + reps[k].oldLen <= reps[k + 1].start
    ensures var r := reps[k];
      Forward(items, reps, pos) ==
        Forward(items[..r.start], reps[..k], pos) + (r.newItems + Forward(items, reps[k + 1..], r.start + r.oldLen))
    decreases k
  {
    hide Forward, OneAfterAnother;
    var s := reps[k].start;
    ForwardNext(items, reps, pos);
    if k == 0 {
      ForwardRest(items, pos, s);
      assert reps[..0] == [];
    } else {
      var r, rest := reps[0], reps[1..];
      var end := r.start + r.oldLen;
      assert rest[..k - 1] == reps[..k][1..] && rest[k..] == reps[k + 1..] && rest[k - 1] == reps[k];
      ForwardNext(items[..s], reps[..k], pos);
      if k > 1 {
        assert rest[0] == reps[..k][1..][0];
      }
      ForwardCut(items, rest, end, k - 1);
      assert items[..s][pos..r.start] == items[pos..r.start];
      Regrouped(items[pos..r.start], r.newItems, Forward(items[..s], rest[..k - 1], end),
        reps[k].newItems + Forward(items, reps[k + 1..], s + reps[k].oldLen));
    }
  }

  /** For disjoint replacements in order, splicing from the back is one pass
      over the file. */
  lemma BackwardIsForward<T>(items: seq<T>, reps: seq<Replacement<T>>)
    requires OneAfterAnother(|items|, reps)
    ensures Backward(items, reps) == Forward(items, reps, 0)
  {
    assert reps[|reps|..] == [] && reps[..|reps|] == reps;
    assert items == items[..|items|] + Forward(items, [], |items|);
    BackwardFrom(items, reps, |reps|, items);
  }
}
