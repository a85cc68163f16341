/** Credential bindings that were reported to the model: their normal form, and
    merging and comparing two sets of them. */
module Credentials {
  import opened Messages
  import opened Text

  datatype Use = Use(id: string, description: string)

  datatype Binding = Binding(credentialId: string, envVar: string, uses: seq<Use>)

  // ----- Order

  /** The order of strings. */
  predicate Less(a: string, b: string) {
    b != "" && (a == "" || a[0] < b[0] || (a[0] == b[0] && Less(a[1..], b[1..])))
  }

  lemma {:induction false} LessOrder(a: string, b: string)
    ensures !Less(a, a)
    ensures a != b ==> Less(a, b) || Less(b, a)
    ensures !(Less(a, b) && Less(b, a))
  {
    if a != "" && b != "" {
      LessOrder(a[1..], b[1..]);
      assert a == [a[0]] + a[1..] && b == [b[0]] + b[1..];
    } else if a != "" {
      LessOrder(a[1..], "");
    }
  }

  lemma {:induction false} LessTrans(a: string, b: string, c: string)
    requires Less(a, b) && Less(b, c)
    ensures Less(a, c)
  {
    if a != "" && a[0] == b[0] && b[0] == c[0] {
      LessTrans(a[1..], b[1..], c[1..]);
    }
  }

  /** A strict order on items by two sort keys. */
  datatype Ranked<T> = Ranked(major: string, minor: string, value: T)

  predicate Before<T>(a: Ranked<T>, b: Ranked<T>) {
    Less(a.major, b.major) || (a.major == b.major && Less(a.minor, b.minor))
  }

  lemma BeforeOrder<T>(a: Ranked<T>, b: Ranked<T>)
    ensures !(Before(a, b) && Before(b, a)) && !Before(a, a)
    ensures Before(a, b) || Before(b, a) || (a.major == b.major && a.minor == b.minor)
  {
    LessOrder(a.major, b.major);
    LessOrder(a.minor, b.minor);
  }

  lemma BeforeTrans<T>(a: Ranked<T>, b: Ranked<T>, c: Ranked<T>)
    requires Before(a, b) && Before(b, c)
    ensures Before(a, c)
  {
    if Less(a.major, b.major) && Less(b.major, c.major) {
      LessTrans(a.major, b.major, c.major);
    } else if a.major == b.major && b.major == c.major {
      LessTrans(a.minor, b.minor, c.minor);
    }
  }

  predicate Sorted<T>(s: seq<Ranked<T>>) {
    forall i, j :: 0 <= i < j < |s| ==> Before(s[i], s[j])
  }

  /** No two items have the same sort keys. */
  predicate DistinctRanks<T>(s: seq<Ranked<T>>) {
    forall i, j :: 0 <= i < j < |s| ==> s[i].major != s[j].major || s[i].minor != s[j].minor
  }

  /** Strictly sorted lists with the same items are the same list. */
  lemma {:induction false} SortedOnce<T(!new)>(a: seq<Ranked<T>>, b: seq<Ranked<T>>)
    requires Sorted(a) && Sorted(b) && forall x :: x in a <==> x in b
    ensures a == b
  {
    if a == [] {
      NothingIn(a, b);
    } else {
      assert a[0] in a;
      FirstIsSame(a, b);
      var x := a[0];
      forall y
        ensures y in a[1..] <==> y in b[1..]
      {
        SplitFirst(a, y);
        SplitFirst(b, y);
      }
      SortedOnce(a[1..], b[1..]);
      assert a == [x] + a[1..] && b == [x] + b[1..];
    }
  }

  lemma NothingIn<T(!new)>(a: seq<T>, b: seq<T>)
    requires forall x :: x in b ==> x in a
    ensures a == [] ==> b == []
  {
    assert |b| > 0 ==> b[0] in b && b[0] in a;
  }

  lemma FirstIsSame<T(!new)>(a: seq<Ranked<T>>, b: seq<Ranked<T>>)
    requires Sorted(a) && Sorted(b) && a != [] && forall x :: x in a <==> x in b
    ensures b != [] && a[0] == b[0]
  {
    assert a[0] in b && b[0] in a;
    BeforeOrder(a[0], b[0]);
  }

  /** In a strictly sorted list the first item occurs once. */
  lemma SplitFirst<T(!new)>(s: seq<Ranked<T>>, y: Ranked<T>)
    requires Sorted(s) && s != []
    ensures y in s[1..] <==> y in s && y != s[0]
  {
    BeforeOrder(y, y);
    assert s == [s[0]] + s[1..];
    if y in s[1..] {
      var k :| 0 <= k < |s[1..]| && s[1..][k] == y;
      assert Before(s[0], s[k + 1]);
    }
  }

  /** sort.Slice, on items with distinct sort keys. */
  method Sort<T(==)>(s: seq<Ranked<T>>) returns (r: seq<Ranked<T>>)
    requires DistinctRanks(s)
    ensures Sorted(r) && |r| == |s| && forall x :: x in r <==> x in s
  {
    r := [];
    for i := 0 to |s|
      invariant Sorted(r) && |r| == i && forall x :: x in r <==> x in s[..i]
    {
      assert s[..i + 1] == s[..i] + [s[i]];
      forall x | x in r
        ensures Before(x, s[i]) || Before(s[i], x)
      {
        BeforeOrder(x, s[i]);
      }
      r := Insert(s[i], r);
    }
    assert s[..|s|] == s;
  }

  method Insert<T(==)>(x: Ranked<T>, s: seq<Ranked<T>>) returns (r: seq<Ranked<T>>)
    requires Sorted(s) && forall y :: y in s ==> Before(y, x) || Before(x, y)
    ensures Sorted(r) && |r| == |s| + 1 && forall y :: y in r <==> y in s || y == x
  {
    hide Before;
    var k := |s|;
    while k > 0 && Before(x, s[k - 1])
      invariant 0 <= k <= |s|
      invariant forall j :: k <= j < |s| ==> Before(x, s[j])
    {
      k := k - 1;
    }
    forall j | 0 <= j < k
      ensures Before(s[j], x)
    {
      assert s[k - 1] in s;
      if j < k - 1 {
        BeforeTrans(s[j], s[k - 1], x);
      }
    }
    r := s[..k] + [x] + s[k..];
    assert s == s[..k] + s[k..];
  }

  // ----- Normal forms of uses

  function UseRanks(us: seq<Use>): (r: seq<Ranked<Use>>)
    ensures |r| == |us|
  {
    seq(|us|, i requires 0 <= i < |us| => Ranked(us[i].id, "", us[i]))
  }

  function Values<T>(s: seq<Ranked<T>>): (r: seq<T>)
    ensures |r| == |s|
  {
    seq(|s|, i requires 0 <= i < |s| => s[i].value)
  }

  function CleanUse(u: Use): Use {
    Use(TrimSpace(u.id), TrimSpace(u.description))
  }

  /** The first use with its ID, which is not blank. */
  ghost predicate FirstUse(us: seq<Use>, i: nat) {
    i < |us| && TrimSpace(us[i].id) != "" && forall j :: 0 <= j < i ==> TrimSpace(us[j].id) != TrimSpace(us[i].id)
  }

  ghost predicate KeptUse(us: seq<Use>, x: Use) {
    exists i: nat :: FirstUse(us, i) && x == CleanUse(us[i])
  }

  /** `r` holds the cleaned first uses of `us`, sorted by ID. */
  ghost predicate NormalUses(us: seq<Use>, r: seq<Use>) {
    Sorted(UseRanks(r)) && forall x :: x in r <==> KeptUse(us, x)
  }

  predicate CanonicalUses(us: seq<Use>) {
    Sorted(UseRanks(us)) && forall u :: u in us ==> u.id != "" && CleanUse(u) == u
  }

  lemma UseRanksIn(us: seq<Use>, u: Use)
    ensures u in us <==> Ranked(u.id, "", u) in UseRanks(us)
  {
    if u in us {
      var i :| 0 <= i < |us| && us[i] == u;
      assert UseRanks(us)[i] == Ranked(u.id, "", u);
    }
  }

  /** Normal forms are unique, so sorting by whatever algorithm and walking
      maps in whatever order give the same list. */
  lemma NormalUsesOnce(us: seq<Use>, a: seq<Use>, b: seq<Use>)
    requires NormalUses(us, a) && NormalUses(us, b)
    ensures a == b
  {
    forall x
      ensures x in UseRanks(a) <==> x in UseRanks(b)
    {
      UseRanksIn(a, x.value);
      UseRanksIn(b, x.value);
    }
    SortedOnce(UseRanks(a), UseRanks(b));
    assert forall i :: 0 <= i < |a| ==> a[i] == UseRanks(a)[i].value && b[i] == UseRanks(b)[i].value;
  }

  lemma NormalUsesCanonical(us: seq<Use>, r: seq<Use>)
    requires NormalUses(us, r)
    ensures CanonicalUses(r)
  {
    hide TrimSpace;
    forall u | u in r
      ensures u.id != "" && CleanUse(u) == u
    {
      var i: nat :| FirstUse(us, i) && u == CleanUse(us[i]);
      TrimSpaceTwice(us[i].id);
      TrimSpaceTwice(us[i].description);
    }
  }

  lemma CanonicalUsesDistinct(us: seq<Use>, i: nat, j: nat)
    requires Sorted(UseRanks(us)) && i < j < |us|
    ensures us[i].id != us[j].id
  {
    assert Before(UseRanks(us)[i], UseRanks(us)[j]);
    LessOrder(us[i].id, us[j].id);
  }

  lemma CanonicalUsesFixed(us: seq<Use>)
    requires CanonicalUses(us)
    ensures NormalUses(us, us)
  {
    hide TrimSpace, Before;
    forall x
      ensures x in us <==> KeptUse(us, x)
    {
      if x in us {
        var i :| 0 <= i < |us| && us[i] == x;
        forall j | 0 <= j < i
          ensures TrimSpace(us[j].id) != TrimSpace(us[i].id)
        {
          assert us[j] in us;
          CanonicalUsesDistinct(us, j, i);
          assert CleanUse(us[j]) == us[j] && CleanUse(us[i]) == us[i];
        }
        assert FirstUse(us, i);
      }
      if KeptUse(us, x) {
        var i: nat :| FirstUse(us, i) && x == CleanUse(us[i]);
        assert us[i] in us;
      }
    }
  }

  /** The first `n` uses were read: `kept` are the cleaned first ones, `seen`
      their IDs. */
  ghost predicate UsesRead(us: seq<Use>, n: nat, kept: seq<Use>, seen: set<string>) {
    && (forall x :: x in kept <==> exists j: nat :: j < n && FirstUse(us, j) && x == CleanUse(us[j]))
    && (forall j, k :: 0 <= j < k < |kept| ==> kept[j].id != kept[k].id)
    && seen == set u | u in kept :: u.id
  }

  /** An ID was seen exactly when an earlier use has it. */
  lemma {:induction false} FirstWithId(us: seq<Use>, n: nat, id: string) returns (i: nat)
    requires n <= |us| && id != "" && exists j :: 0 <= j < n && TrimSpace(us[j].id) == id
    ensures i < n && FirstUse(us, i) && TrimSpace(us[i].id) == id
  {
    if j :| 0 <= j < n - 1 && TrimSpace(us[j].id) == id {
      i := FirstWithId(us, n - 1, id);
    } else {
      i := n - 1;
    }
  }

  lemma UseRead(us: seq<Use>, n: nat, kept: seq<Use>, seen: set<string>)
    requires n < |us| && UsesRead(us, n, kept, seen)
    ensures var u := CleanUse(us[n]);
      if u.id == "" || u.id in seen then UsesRead(us, n + 1, kept, seen)
      else UsesRead(us, n + 1, kept + [u], seen + {u.id})
  {
    hide TrimSpace;
    var u := CleanUse(us[n]);
    var isNew := u.id != "" && u.id !in seen;
    assert isNew <==> FirstUse(us, n) by {
      if u.id != "" && exists j :: 0 <= j < n && TrimSpace(us[j].id) == u.id {
        var i := FirstWithId(us, n, u.id);
        assert CleanUse(us[i]) in kept;
      }
      if u.id in seen {
        var k :| k in kept && k.id == u.id;
        var j: nat :| j < n && FirstUse(us, j) && k == CleanUse(us[j]);
      }
    }
    if isNew {
      assert forall k :: 0 <= k < |kept| ==> kept[k] in kept && kept[k].id in seen;
    }
  }

  /** normalizeCommunicatedCredentialUses */
  method NormalizeUses(us: seq<Use>) returns (r: seq<Use>)
    ensures NormalUses(us, r)
  {
    hide TrimSpace, Before, FirstUse;
    var normalized: seq<Use> := [];
    var seen: set<string> := {};
    for i := 0 to |us|
      invariant UsesRead(us, i, normalized, seen)
    {
      var use := CleanUse(us[i]);
      UseRead(us, i, normalized, seen);
      if use.id == "" || use.id in seen {
        continue;
      }
      seen := seen + {use.id};
      normalized := normalized + [use];
    }
    var sorted := Sort(UseRanks(normalized));
    r := Values(sorted);
    UseValues(normalized, sorted);
    ReadAll(us, normalized, seen);
  }

  lemma ReadAll(us: seq<Use>, kept: seq<Use>, seen: set<string>)
    requires UsesRead(us, |us|, kept, seen)
    ensures forall x :: x in kept <==> KeptUse(us, x)
  {
  }

  lemma UseValues(us: seq<Use>, sorted: seq<Ranked<Use>>)
    requires forall x :: x in sorted <==> x in UseRanks(us)
    ensures UseRanks(Values(sorted)) == sorted && forall x :: x in Values(sorted) <==> x in us
  {
    var r := Values(sorted);
    forall i | 0 <= i < |sorted|
      ensures sorted[i] == Ranked(sorted[i].value.id, "", sorted[i].value)
    {
      assert sorted[i] in sorted;
    }
    assert UseRanks(r) == sorted;
    forall x
      ensures x in r <==> x in us
    {
      UseRanksIn(r, x);
      UseRanksIn(us, x);
    }
  }

  // ----- Normal forms of bindings

  function KeyOf(b: Binding): string {
    TrimSpace(b.credentialId) + "\0" + TrimSpace(b.envVar)
  }

  function BindingRanks(bs: seq<Binding>): (r: seq<Ranked<Binding>>)
    ensures |r| == |bs|
  {
    seq(|bs|, i requires 0 <= i < |bs| => Ranked(bs[i].credentialId, bs[i].envVar, bs[i]))
  }

  /** `x` is `b` with its fields trimmed and its uses in normal form. */
  ghost predicate CleanOf(b: Binding, x: Binding) {
    && x.credentialId == TrimSpace(b.credentialId) && x.envVar == TrimSpace(b.envVar)
    && NormalUses(b.uses, x.uses)
  }

  predicate Named(b: Binding) {
    TrimSpace(b.credentialId) != ""
  }

  /** The first binding with its key that names a credential. */
  ghost predicate FirstBinding(bs: seq<Binding>, i: nat) {
    i < |bs| && Named(bs[i]) && forall j :: 0 <= j < i && Named(bs[j]) ==> KeyOf(bs[j]) != KeyOf(bs[i])
  }

  ghost predicate KeptBinding(bs: seq<Binding>, x: Binding) {
    exists i: nat :: FirstBinding(bs, i) && CleanOf(bs[i], x)
  }

  /** `r` holds the cleaned first bindings of `bs`, sorted. */
  ghost predicate NormalBindings(bs: seq<Binding>, r: seq<Binding>) {
    && Sorted(BindingRanks(r)) && DistinctKeys(r)
    && forall x :: x in r <==> KeptBinding(bs, x)
  }

  ghost predicate DistinctKeys(bs: seq<Binding>) {
    forall i, j :: 0 <= i < j < |bs| ==> KeyOf(bs[i]) != KeyOf(bs[j])
  }

  predicate Clean(b: Binding) {
    && b.credentialId != "" && TrimSpace(b.credentialId) == b.credentialId && TrimSpace(b.envVar) == b.envVar
    && CanonicalUses(b.uses)
  }

  /** What Normalize produces: clean, sorted, one binding for each key. */
  ghost predicate Canonical(bs: seq<Binding>) {
    Sorted(BindingRanks(bs)) && DistinctKeys(bs) && forall b :: b in bs ==> Clean(b)
  }

  lemma BindingRanksIn(bs: seq<Binding>, b: Binding)
    ensures b in bs <==> Ranked(b.credentialId, b.envVar, b) in BindingRanks(bs)
  {
    if b in bs {
      var i :| 0 <= i < |bs| && bs[i] == b;
      assert BindingRanks(bs)[i] == Ranked(b.credentialId, b.envVar, b);
    }
  }

  lemma SameBindings(a: seq<Binding>, b: seq<Binding>)
    requires Sorted(BindingRanks(a)) && Sorted(BindingRanks(b)) && forall x :: x in a <==> x in b
    ensures a == b
  {
    forall x
      ensures x in BindingRanks(a) <==> x in BindingRanks(b)
    {
      BindingRanksIn(a, x.value);
      BindingRanksIn(b, x.value);
    }
    SortedOnce(BindingRanks(a), BindingRanks(b));
    assert forall i :: 0 <= i < |a| ==> a[i] == BindingRanks(a)[i].value && b[i] == BindingRanks(b)[i].value;
  }

  /** The normal form is unique. */
  lemma NormalBindingsOnce(bs: seq<Binding>, a: seq<Binding>, b: seq<Binding>)
    requires NormalBindings(bs, a) && NormalBindings(bs, b)
    ensures a == b
  {
    hide Sorted, KeptBinding, DistinctKeys;
    SameBindings(a, b);
  }

  lemma CleanKey(b: Binding, x: Binding)
    requires CleanOf(b, x)
    ensures KeyOf(x) == KeyOf(b) && (Named(b) ==> Clean(x))
  {
    hide TrimSpace, NormalUses, CanonicalUses;
    TrimSpaceTwice(b.credentialId);
    TrimSpaceTwice(b.envVar);
    NormalUsesCanonical(b.uses, x.uses);
  }

  lemma NormalBindingsCanonical(bs: seq<Binding>, r: seq<Binding>)
    requires NormalBindings(bs, r)
    ensures Canonical(r)
  {
    hide Sorted, DistinctKeys, Clean, CleanOf, Named, KeyOf;
    forall x | x in r
      ensures Clean(x)
    {
      var i: nat :| FirstBinding(bs, i) && CleanOf(bs[i], x);
      CleanKey(bs[i], x);
    }
  }

  lemma CleanOfClean(b: Binding, x: Binding)
    requires Clean(b)
    ensures CleanOf(b, x) <==> x == b
  {
    hide TrimSpace, NormalUses, CanonicalUses;
    CanonicalUsesFixed(b.uses);
    if CleanOf(b, x) {
      NormalUsesOnce(b.uses, b.uses, x.uses);
    }
  }

  /** Clean bindings with distinct keys are only put in order. */
  lemma CleanStay(bs: seq<Binding>, x: Binding)
    requires DistinctKeys(bs) && forall b :: b in bs ==> Clean(b)
    ensures KeptBinding(bs, x) <==> x in bs
  {
    hide KeyOf, CleanOf, Clean;
    if x in bs {
      var i :| 0 <= i < |bs| && bs[i] == x;
      CleanOfClean(x, x);
      CleanIsNamed(x);
      assert FirstBinding(bs, i);
    }
    if KeptBinding(bs, x) {
      var i: nat :| FirstBinding(bs, i) && CleanOf(bs[i], x);
      CleanOfClean(bs[i], x);
    }
  }

  lemma CleanIsNamed(b: Binding)
    requires Clean(b)
    ensures Named(b)
  {
  }

  /** A canonical list is its own normal form; with the lemmas above, Normalize
      is idempotent. */
  lemma CanonicalFixed(bs: seq<Binding>, r: seq<Binding>)
    requires Canonical(bs)
    ensures NormalBindings(bs, r) <==> r == bs
  {
    hide Sorted, DistinctKeys, Clean, KeptBinding;
    forall x
      ensures KeptBinding(bs, x) <==> x in bs
    {
      CleanStay(bs, x);
    }
    if NormalBindings(bs, r) {
      SameBindings(bs, r);
    }
  }

  lemma NormalizeTwice(bs: seq<Binding>, once: seq<Binding>, twice: seq<Binding>)
    requires NormalBindings(bs, once) && NormalBindings(once, twice)
    ensures twice == once
  {
    NormalBindingsCanonical(bs, once);
    CanonicalFixed(once, twice);
  }

  function KeysOf(bs: seq<Binding>): set<string> {
    set b | b in bs :: KeyOf(b)
  }

  lemma KeysMore(bs: seq<Binding>, x: Binding)
    ensures KeysOf(bs + [x]) == KeysOf(bs) + {KeyOf(x)}
    ensures forall b :: b in bs ==> KeyOf(b) in KeysOf(bs)
  {
    hide KeyOf;
    assert forall b :: b in bs + [x] <==> b in bs || b == x;
  }

  /** The first `n` bindings were read. */
  ghost predicate BindingsRead(bs: seq<Binding>, n: nat, kept: seq<Binding>, seen: set<string>) {
    && KeptFrom(bs, n, kept)
    && DistinctKeys(kept)
    && (forall j: nat :: j < n && FirstBinding(bs, j) ==> KeyOf(bs[j]) in seen)
    && seen == KeysOf(kept)
  }

  lemma {:induction false} FirstWithKey(bs: seq<Binding>, n: nat, key: string) returns (i: nat)
    requires n <= |bs| && exists j :: 0 <= j < n && Named(bs[j]) && KeyOf(bs[j]) == key
    ensures i < n && FirstBinding(bs, i) && KeyOf(bs[i]) == key
  {
    hide KeyOf, Named;
    if j :| 0 <= j < n - 1 && Named(bs[j]) && KeyOf(bs[j]) == key {
      i := FirstWithKey(bs, n - 1, key);
    } else {
      i := n - 1;
    }
  }

  /** A binding comes first exactly when its key is new. */
  lemma FirstIsNew(bs: seq<Binding>, n: nat, kept: seq<Binding>, seen: set<string>)
    requires n < |bs| && BindingsRead(bs, n, kept, seen) && Named(bs[n])
    ensures FirstBinding(bs, n) <==> KeyOf(bs[n]) !in seen
  {
    hide KeyOf, Named, CleanOf;
    var key := KeyOf(bs[n]);
    if exists j :: 0 <= j < n && Named(bs[j]) && KeyOf(bs[j]) == key {
      var i := FirstWithKey(bs, n, key);
    }
    if key in seen {
      var x :| x in kept && KeyOf(x) == key;
      var j: nat :| j < n && FirstBinding(bs, j) && CleanOf(bs[j], x);
      CleanKey(bs[j], x);
    }
  }

  lemma SkippedRead(bs: seq<Binding>, n: nat, kept: seq<Binding>, seen: set<string>)
    requires n < |bs| && BindingsRead(bs, n, kept, seen) && !FirstBinding(bs, n)
    ensures BindingsRead(bs, n + 1, kept, seen)
  {
    hide FirstBinding, CleanOf, KeyOf, DistinctKeys;
  }

  lemma DistinctMore(bs: seq<Binding>, x: Binding)
    requires DistinctKeys(bs) && forall b :: b in bs ==> KeyOf(b) != KeyOf(x)
    ensures DistinctKeys(bs + [x])
  {
    hide KeyOf;
    assert forall k :: 0 <= k < |bs| ==> bs[k] in bs;
  }

  /** `kept` are the cleaned first bindings among the first `n`. */
  ghost predicate KeptFrom(bs: seq<Binding>, n: nat, kept: seq<Binding>) {
    forall x :: x in kept <==> exists j: nat :: j < n && FirstBinding(bs, j) && CleanOf(bs[j], x)
  }

  lemma KeptMore(bs: seq<Binding>, n: nat, kept: seq<Binding>, x: Binding)
    requires n < |bs| && KeptFrom(bs, n, kept) && FirstBinding(bs, n) && CleanOf(bs[n], x)
    ensures KeptFrom(bs, n + 1, kept + [x])
  {
    CleanedOnce(bs[n], x);
    hide FirstBinding, CleanOf;
    forall y
      ensures y in kept + [x] <==> exists j: nat :: j < n + 1 && FirstBinding(bs, j) && CleanOf(bs[j], y)
    {
      assert y in kept + [x] <==> y in kept || y == x;
      if y in kept {
        var j: nat :| j < n && FirstBinding(bs, j) && CleanOf(bs[j], y);
        assert j < n + 1;
      }
    }
  }

  lemma KeptRead(bs: seq<Binding>, n: nat, kept: seq<Binding>, seen: set<string>, x: Binding)
    requires n < |bs| && BindingsRead(bs, n, kept, seen) && FirstBinding(bs, n)
    requires CleanOf(bs[n], x) && KeyOf(x) == KeyOf(bs[n]) && KeyOf(x) !in seen
    ensures BindingsRead(bs, n + 1, kept + [x], seen + {KeyOf(x)})
  {
    hide FirstBinding, CleanOf, KeyOf, DistinctKeys, KeptFrom, KeysOf;
    KeptMore(bs, n, kept, x);
    KeysMore(kept, x);
    DistinctMore(kept, x);
  }

  lemma BindingRead(bs: seq<Binding>, n: nat, kept: seq<Binding>, seen: set<string>, x: Binding)
    requires n < |bs| && BindingsRead(bs, n, kept, seen) && CleanOf(bs[n], x)
    ensures if x.credentialId == "" || KeyOf(x) in seen then BindingsRead(bs, n + 1, kept, seen)
            else BindingsRead(bs, n + 1, kept + [x], seen + {KeyOf(x)})
  {
    CleanKey(bs[n], x);
    assert Named(bs[n]) <==> x.credentialId != "";
    hide KeyOf, BindingsRead, NormalUses, TrimSpace;
    if Named(bs[n]) {
      FirstIsNew(bs, n, kept, seen);
    }
    if FirstBinding(bs, n) {
      KeptRead(bs, n, kept, seen, x);
    } else {
      SkippedRead(bs, n, kept, seen);
    }
  }

  lemma CleanedOnce(b: Binding, x: Binding)
    requires CleanOf(b, x)
    ensures forall y :: CleanOf(b, y) ==> y == x
  {
    forall y | CleanOf(b, y)
      ensures y == x
    {
      NormalUsesOnce(b.uses, x.uses, y.uses);
    }
  }

  lemma BindingValues(bs: seq<Binding>, sorted: seq<Ranked<Binding>>)
    requires |sorted| == |bs| && forall x :: x in sorted <==> x in BindingRanks(bs)
    ensures BindingRanks(Values(sorted)) == sorted && forall x :: x in Values(sorted) <==> x in bs
  {
    var r := Values(sorted);
    forall i | 0 <= i < |sorted|
      ensures sorted[i] == Ranked(sorted[i].value.credentialId, sorted[i].value.envVar, sorted[i].value)
    {
      assert sorted[i] in sorted;
    }
    assert BindingRanks(r) == sorted;
    forall x
      ensures x in r <==> x in bs
    {
      BindingRanksIn(r, x);
      BindingRanksIn(bs, x);
    }
  }

  /** Distinct keys are distinct pairs of fields. */
  lemma KeysAreRanks(bs: seq<Binding>)
    requires DistinctKeys(bs)
    ensures DistinctRanks(BindingRanks(bs))
  {
    var ranks := BindingRanks(bs);
    forall i, j | 0 <= i < j < |ranks|
      ensures ranks[i].major != ranks[j].major || ranks[i].minor != ranks[j].minor
    {
      assert KeyOf(bs[i]) != KeyOf(bs[j]);
    }
  }

  /** A sorted rearrangement keeps the keys distinct. */
  lemma KeysStayDistinct(bs: seq<Binding>, r: seq<Binding>)
    requires DistinctKeys(bs) && Sorted(BindingRanks(r)) && forall x :: x in r <==> x in bs
    ensures DistinctKeys(r)
  {
    hide KeyOf;
    forall i, j | 0 <= i < j < |r|
      ensures KeyOf(r[i]) != KeyOf(r[j])
    {
      assert Before(BindingRanks(r)[i], BindingRanks(r)[j]);
      BeforeOrder(BindingRanks(r)[i], BindingRanks(r)[j]);
      assert r[i] in bs && r[j] in bs && r[i] != r[j];
    }
  }

  /** NormalizeCommunicatedCredentialBindings */
  method NormalizeBindings(bs: seq<Binding>) returns (r: seq<Binding>)
    ensures NormalBindings(bs, r) && Canonical(r)
  {
    hide TrimSpace, KeyOf, CleanOf, NormalUses, Sorted, DistinctKeys, BindingsRead, KeptBinding, Canonical;
    var normalized: seq<Binding> := [];
    var seen: set<string> := {};
    NoneRead(bs);
    for i := 0 to |bs|
      invariant BindingsRead(bs, i, normalized, seen)
    {
      var uses := NormalizeUses(bs[i].uses);
      var binding := Binding(TrimSpace(bs[i].credentialId), TrimSpace(bs[i].envVar), uses);
      assert CleanOf(bs[i], binding) by { IsCleanOf(bs[i], binding); }
      BindingRead(bs, i, normalized, seen, binding);
      if binding.credentialId == "" || KeyOf(binding) in seen {
        continue;
      }
      seen := seen + {KeyOf(binding)};
      normalized := normalized + [binding];
    }
    ReadAllBindings(bs, normalized, seen);
    KeysAreRanks(normalized);
    var sorted := Sort(BindingRanks(normalized));
    r := Values(sorted);
    BindingValues(normalized, sorted);
    KeysStayDistinct(normalized, r);
    NormalBindingsCanonical(bs, r);
  }

  lemma IsCleanOf(b: Binding, x: Binding)
    requires NormalUses(b.uses, x.uses)
    requires x.credentialId == TrimSpace(b.credentialId) && x.envVar == TrimSpace(b.envVar)
    ensures CleanOf(b, x)
  {
  }

  lemma NoneRead(bs: seq<Binding>)
    ensures BindingsRead(bs, 0, [], {})
  {
  }

  lemma ReadAllBindings(bs: seq<Binding>, kept: seq<Binding>, seen: set<string>)
    requires BindingsRead(bs, |bs|, kept, seen)
    ensures DistinctKeys(kept) && forall x :: x in kept <==> KeptBinding(bs, x)
  {
  }

  // ----- Merging and comparing

  ghost predicate HasKey(bs: seq<Binding>, key: string) {
    exists b :: b in bs && KeyOf(b) == key
  }

  /** A map of the bindings by key. */
  ghost predicate ByKey(bs: seq<Binding>, m: map<string, Binding>) {
    && (forall b :: b in bs ==> KeyOf(b) in m && m[KeyOf(b)] == b)
    && (forall key :: key in m ==> m[key] in bs && KeyOf(m[key]) == key)
  }

  method IndexByKey(bs: seq<Binding>) returns (m: map<string, Binding>)
    requires DistinctKeys(bs)
    ensures ByKey(bs, m)
  {
    hide KeyOf;
    m := map[];
    for i := 0 to |bs|
      invariant forall j :: 0 <= j < i ==> KeyOf(bs[j]) in m && m[KeyOf(bs[j])] == bs[j]
      invariant forall key :: key in m ==> m[key] in bs && KeyOf(m[key]) == key
    {
      m := m[KeyOf(bs[i]) := bs[i]];
    }
  }

  /** The values of a map in whatever order it is walked. */
  method MapValues(m: map<string, Binding>) returns (values: seq<Binding>)
    requires forall key :: key in m ==> KeyOf(m[key]) == key
    ensures DistinctKeys(values) && forall x :: x in values <==> exists key :: key in m && m[key] == x
  {
    hide KeyOf;
    values := [];
    var rest := m.Keys;
    while rest != {}
      invariant rest <= m.Keys && DistinctKeys(values)
      invariant forall x :: x in values <==> exists key :: key in m && key !in rest && m[key] == x
      decreases rest
    {
      var key :| key in rest;
      forall i | 0 <= i < |values|
        ensures KeyOf(values[i]) != key
      {
        assert values[i] in values;
      }
      values := values + [m[key]];
      rest := rest - {key};
    }
  }

  /** MergeCommunicatedCredentialBindings: all keys of both are kept, and the
      updates win. */
  method MergeBindings(existing: seq<Binding>, updates: seq<Binding>)
    returns (r: seq<Binding>, ghost was: seq<Binding>, ghost now: seq<Binding>)
    ensures NormalBindings(existing, was) && NormalBindings(updates, now) && Canonical(r)
    ensures forall x :: x in r <==> x in now || (x in was && !HasKey(now, KeyOf(x)))
  {
    hide KeyOf, Sorted, DistinctKeys, KeptBinding, Clean, ByKey;
    var merged := NormalizeBindings(existing);
    was := merged;
    if |updates| == 0 {
      now := [];
      NothingNormal();
      return merged, was, now;
    }
    var next := NormalizeBindings(updates);
    now := next;
    var base := IndexByKey(merged);
    var changed := IndexByKey(next);
    var byKey := base + changed;
    MergedMap(merged, next, base, changed);
    var result := MapValues(byKey);
    r := NormalizeBindings(result);
    forall x
      ensures x in r <==> x in result
    {
      CleanStay(result, x);
    }
  }

  lemma NothingNormal()
    ensures NormalBindings([], [])
  {
  }

  lemma HasKeyIn(bs: seq<Binding>, m: map<string, Binding>, key: string)
    requires ByKey(bs, m)
    ensures HasKey(bs, key) <==> key in m
    ensures forall x :: (x in bs && KeyOf(x) == key) <==> (key in m && m[key] == x)
  {
    hide KeyOf;
  }

  lemma MergedMap(a: seq<Binding>, b: seq<Binding>, m: map<string, Binding>, n: map<string, Binding>)
    requires Canonical(a) && Canonical(b) && ByKey(a, m) && ByKey(b, n)
    ensures forall key :: key in m + n ==> KeyOf((m + n)[key]) == key && Clean((m + n)[key])
    ensures forall x :: (exists key :: key in m + n && (m + n)[key] == x) <==> x in b || (x in a && !HasKey(b, KeyOf(x)))
  {
    hide KeyOf, Sorted, DistinctKeys, Clean, HasKey;
    var both := m + n;
    forall x
      ensures (exists key :: key in both && both[key] == x) <==> x in b || (x in a && !HasKey(b, KeyOf(x)))
    {
      HasKeyIn(b, n, KeyOf(x));
      HasKeyIn(a, m, KeyOf(x));
      if key :| key in both && both[key] == x {
        assert key == KeyOf(x);
      }
      if x in b || (x in a && !HasKey(b, KeyOf(x))) {
        assert both[KeyOf(x)] == x;
      }
    }
  }

  function UseIds(uses: seq<Use>): set<string> {
    set u | u in uses :: u.id
  }

  /** The uses whose IDs are not among `known`. */
  function NewUses(uses: seq<Use>, known: set<string>): (r: seq<Use>)
    ensures forall u :: u in r <==> u in uses && u.id !in known
  {
    if uses == [] then []
    else
      var rest, last := NewUses(uses[..|uses| - 1], known), uses[|uses| - 1];
      assert uses == uses[..|uses| - 1] + [last];
      if last.id in known then rest else rest + [last]
  }

  /** What `c` has that the bindings `bs` do not have: itself, or its new uses. */
  ghost predicate NewOf(bs: seq<Binding>, c: Binding, x: Binding) {
    if !HasKey(bs, KeyOf(c)) then x == c
    else exists p :: (
      && p in bs && KeyOf(p) == KeyOf(c) && NewUses(c.uses, UseIds(p.uses)) != []
      && x == Binding(c.credentialId, c.envVar, NewUses(c.uses, UseIds(p.uses))))
  }

  function NewPartOf(m: map<string, Binding>, c: Binding): Option<Binding> {
    if KeyOf(c) !in m then Some(c)
    else
      var uses := NewUses(c.uses, UseIds(m[KeyOf(c)].uses));
      if uses == [] then None else Some(Binding(c.credentialId, c.envVar, uses))
  }

  lemma NewPartIs(bs: seq<Binding>, m: map<string, Binding>, c: Binding, x: Binding)
    requires ByKey(bs, m)
    ensures NewOf(bs, c, x) <==> NewPartOf(m, c) == Some(x)
  {
    HasKeyIn(bs, m, KeyOf(c));
    hide KeyOf, NewUses, HasKey, ByKey;
    if KeyOf(c) in m {
      assert m[KeyOf(c)] in bs;
    }
  }

  ghost predicate IsNewIn(before: seq<Binding>, after: seq<Binding>, x: Binding) {
    exists c :: c in after && NewOf(before, c, x)
  }

  lemma CanonicalFront(uses: seq<Use>)
    requires CanonicalUses(uses) && uses != []
    ensures CanonicalUses(uses[..|uses| - 1]) && CleanUse(uses[|uses| - 1]) == uses[|uses| - 1]
    ensures forall u :: u in uses[..|uses| - 1] ==> Before(Ranked(u.id, "", u), Ranked(uses[|uses| - 1].id, "", uses[|uses| - 1]))
  {
    hide CleanUse, Before;
    var front, last := uses[..|uses| - 1], uses[|uses| - 1];
    assert UseRanks(front) == UseRanks(uses)[..|uses| - 1];
    assert last in uses && forall u :: u in front ==> u in uses;
    forall u | u in front
      ensures Before(Ranked(u.id, "", u), Ranked(last.id, "", last))
    {
      var k :| 0 <= k < |front| && front[k] == u;
      assert Before(UseRanks(uses)[k], UseRanks(uses)[|uses| - 1]);
    }
  }

  lemma CanonicalMore(uses: seq<Use>, last: Use)
    requires CanonicalUses(uses) && last.id != "" && CleanUse(last) == last
    requires forall u :: u in uses ==> Before(Ranked(u.id, "", u), Ranked(last.id, "", last))
    ensures CanonicalUses(uses + [last])
  {
    hide CleanUse, Before;
    assert UseRanks(uses + [last]) == UseRanks(uses) + [Ranked(last.id, "", last)];
    assert forall i :: 0 <= i < |uses| ==> uses[i] in uses;
  }

  lemma {:induction false} NewUsesCanonical(uses: seq<Use>, known: set<string>)
    requires CanonicalUses(uses)
    ensures CanonicalUses(NewUses(uses, known))
  {
    if uses != [] {
      var front, last := uses[..|uses| - 1], uses[|uses| - 1];
      CanonicalFront(uses);
      assert last in uses;
      hide CanonicalUses, CleanUse, Before;
      NewUsesCanonical(front, known);
      if last.id !in known {
        CanonicalMore(NewUses(front, known), last);
      }
    }
  }

  method FilterUses(uses: seq<Use>, known: seq<Use>) returns (r: seq<Use>)
    ensures r == NewUses(uses, UseIds(known))
  {
    var ids := UseIds(known);
    r := [];
    for i := 0 to |uses|
      invariant r == NewUses(uses[..i], ids)
    {
      assert uses[..i + 1][..i] == uses[..i];
      if uses[i].id in ids {
        continue;
      }
      r := r + [uses[i]];
    }
    assert uses[..|uses|] == uses;
  }

  /** `added` is what is new among the bindings of `after` outside `rest`. */
  ghost predicate Collected(m: map<string, Binding>, after: map<string, Binding>, rest: set<string>, added: seq<Binding>) {
    && DistinctKeys(added)
    && (forall b :: b in added ==> Clean(b) && KeyOf(b) in after && KeyOf(b) !in rest)
    && (forall x :: x in added <==> exists key :: key in after && key !in rest && NewPartOf(m, after[key]) == Some(x))
  }

  lemma CollectedOne(
    m: map<string, Binding>, after: map<string, Binding>, rest: set<string>, added: seq<Binding>, key: string, x: Binding)
    requires Collected(m, after, rest, added) && key in rest && key in after
    requires NewPartOf(m, after[key]) == Some(x) && Clean(x) && KeyOf(x) == key
    ensures Collected(m, after, rest - {key}, added + [x])
  {
    hide KeyOf, NewPartOf, Clean, DistinctKeys;
    DistinctMore(added, x);
    forall y
      ensures y in added + [x] <==>
        exists k :: k in after && k !in rest - {key} && NewPartOf(m, after[k]) == Some(y)
    {
      if y in added {
        var k :| k in after && k !in rest && NewPartOf(m, after[k]) == Some(y);
        assert k !in rest - {key};
      }
    }
    assert forall y :: y in added + [x] <==> y in added || y == x;
  }

  lemma CollectedMore(
    m: map<string, Binding>, after: map<string, Binding>, rest: set<string>, added: seq<Binding>, key: string)
    requires Collected(m, after, rest, added) && key in rest && key in after && Clean(after[key]) && KeyOf(after[key]) == key
    ensures var x := NewPartOf(m, after[key]);
      Collected(m, after, rest - {key}, if x.Some? then added + [x.value] else added)
  {
    var x := NewPartOf(m, after[key]);
    if x.Some? {
      PartIsClean(m, after[key]);
      hide Collected;
      CollectedOne(m, after, rest, added, key, x.value);
    } else {
      hide KeyOf, NewPartOf, Clean, DistinctKeys;
      assert forall k :: k in after && k !in rest - {key} <==> k in after && (k !in rest || k == key);
    }
  }

  lemma PartIsClean(m: map<string, Binding>, c: Binding)
    requires Clean(c) && NewPartOf(m, c).Some?
    ensures Clean(NewPartOf(m, c).value) && KeyOf(NewPartOf(m, c).value) == KeyOf(c)
  {
    hide TrimSpace, CanonicalUses, NewUses;
    if KeyOf(c) in m {
      NewUsesCanonical(c.uses, UseIds(m[KeyOf(c)].uses));
    }
  }

  /** One half of the comparison: what `after` has that `before` has not. */
  method NewBindings(before: seq<Binding>, after: seq<Binding>) returns (r: seq<Binding>)
    requires Canonical(before) && Canonical(after)
    ensures Canonical(r) && forall x :: x in r <==> IsNewIn(before, after, x)
  {
    hide KeyOf, Sorted, Clean, NewUses, NewOf, KeptBinding, HasKey, DistinctKeys, Collected, IsNewIn;
    var beforeByKey := IndexByKey(before);
    var afterByKey := IndexByKey(after);
    var added: seq<Binding> := [];
    var rest := afterByKey.Keys;
    NoneCollected(beforeByKey, afterByKey);
    while rest != {}
      invariant rest <= afterByKey.Keys && Collected(beforeByKey, afterByKey, rest, added)
      decreases rest
    {
      var key :| key in rest;
      var current := afterByKey[key];
      CollectedMore(beforeByKey, afterByKey, rest, added, key);
      rest := rest - {key};
      if key !in beforeByKey {
        added := added + [current];
        continue;
      }
      var addedUses := FilterUses(current.uses, beforeByKey[key].uses);
      if |addedUses| > 0 {
        added := added + [Binding(current.credentialId, current.envVar, addedUses)];
      }
    }
    CollectedAll(before, after, beforeByKey, afterByKey, added);
    r := NormalizeBindings(added);
    forall x
      ensures x in r <==> x in added
    {
      CleanStay(added, x);
    }
  }

  lemma NoneCollected(m: map<string, Binding>, after: map<string, Binding>)
    ensures Collected(m, after, after.Keys, [])
  {
  }

  lemma CollectedAll(
    before: seq<Binding>, after: seq<Binding>, m: map<string, Binding>, n: map<string, Binding>, added: seq<Binding>)
    requires ByKey(before, m) && ByKey(after, n) && Collected(m, n, {}, added)
    ensures DistinctKeys(added) && forall b :: b in added ==> Clean(b)
    ensures forall x :: x in added <==> IsNewIn(before, after, x)
  {
    hide KeyOf, NewPartOf, NewOf, Clean, DistinctKeys;
    forall x
      ensures x in added <==> IsNewIn(before, after, x)
    {
      if x in added {
        var key :| key in n && NewPartOf(m, n[key]) == Some(x);
        NewPartIs(before, m, n[key], x);
        assert n[key] in after;
      }
      if IsNewIn(before, after, x) {
        var c :| c in after && NewOf(before, c, x);
        NewPartIs(before, m, c, x);
        assert KeyOf(c) in n && n[KeyOf(c)] == c;
      }
    }
  }

  /** DiffCommunicatedCredentialBindings */
  method DiffBindings(before: seq<Binding>, after: seq<Binding>)
    returns (added: seq<Binding>, removed: seq<Binding>, ghost was: seq<Binding>, ghost now: seq<Binding>)
    ensures NormalBindings(before, was) && NormalBindings(after, now)
    ensures Canonical(was) && Canonical(now) && Canonical(added) && Canonical(removed)
    ensures forall x :: x in added <==> IsNewIn(was, now, x)
    ensures forall x :: x in removed <==> IsNewIn(now, was, x)
  {
    hide Canonical, NormalBindings, IsNewIn;
    var b := NormalizeBindings(before);
    var a := NormalizeBindings(after);
    was, now := b, a;
    added := NewBindings(b, a);
    removed := NewBindings(a, b);
  }

  /** A binding with the key reports the use. */
  ghost predicate HasPair(bs: seq<Binding>, key: string, id: string) {
    exists b :: b in bs && KeyOf(b) == key && id in UseIds(b.uses)
  }

  lemma KeyIsOnce(bs: seq<Binding>, a: Binding, b: Binding)
    requires DistinctKeys(bs) && a in bs && b in bs && KeyOf(a) == KeyOf(b)
    ensures a == b
  {
    hide KeyOf;
    var i :| 0 <= i < |bs| && bs[i] == a;
    var j :| 0 <= j < |bs| && bs[j] == b;
  }

  lemma NewUsesIds(uses: seq<Use>, known: set<string>)
    ensures UseIds(NewUses(uses, known)) == UseIds(uses) - known
  {
    hide NewUses;
    forall id | id in UseIds(uses) - known
      ensures id in UseIds(NewUses(uses, known))
    {
      var u :| u in uses && u.id == id;
      assert u in NewUses(uses, known);
    }
  }

  /** The uses in the difference are exactly those that are new. */
  lemma NewPairs(was: seq<Binding>, now: seq<Binding>, r: seq<Binding>, key: string, id: string)
    requires DistinctKeys(was) && DistinctKeys(now) && forall x :: x in r <==> IsNewIn(was, now, x)
    ensures HasPair(r, key, id) <==> HasPair(now, key, id) && !HasPair(was, key, id)
  {
    hide DistinctKeys, NewUses, UseIds, KeyOf;
    if HasPair(r, key, id) {
      var x :| x in r && KeyOf(x) == key && id in UseIds(x.uses);
      var c :| c in now && NewOf(was, c, x);
      NewKey(was, c, x);
      if HasKey(was, KeyOf(c)) {
        var p :| p in was && KeyOf(p) == KeyOf(c) && x.uses == NewUses(c.uses, UseIds(p.uses));
        NewUsesIds(c.uses, UseIds(p.uses));
        forall b | b in was && KeyOf(b) == key
          ensures b == p
        {
          KeyIsOnce(was, b, p);
        }
      }
    }
    if HasPair(now, key, id) && !HasPair(was, key, id) {
      var c :| c in now && KeyOf(c) == key && id in UseIds(c.uses);
      if HasKey(was, key) {
        var p :| p in was && KeyOf(p) == key;
        NewUsesIds(c.uses, UseIds(p.uses));
        var x := Binding(c.credentialId, c.envVar, NewUses(c.uses, UseIds(p.uses)));
        SomeUse(x.uses, id);
        assert NewOf(was, c, x);
        NewKey(was, c, x);
        assert x in r;
      } else {
        assert NewOf(was, c, c) && c in r;
      }
    }
  }

  lemma SomeUse(uses: seq<Use>, id: string)
    requires id in UseIds(uses)
    ensures uses != []
  {
  }

  lemma NewKey(bs: seq<Binding>, c: Binding, x: Binding)
    requires NewOf(bs, c, x)
    ensures KeyOf(x) == KeyOf(c)
  {
    hide TrimSpace, NewUses;
  }

  /** The difference is exact on uses: what is reported afterwards is what was
      reported before, less what was removed, plus what was added. */
  lemma DiffIsExact(
    was: seq<Binding>, now: seq<Binding>, added: seq<Binding>, removed: seq<Binding>, key: string, id: string)
    requires Canonical(was) && Canonical(now)
    requires forall x :: x in added <==> IsNewIn(was, now, x)
    requires forall x :: x in removed <==> IsNewIn(now, was, x)
    ensures HasPair(now, key, id) <==>
      (HasPair(was, key, id) && !HasPair(removed, key, id)) || HasPair(added, key, id)
    ensures !(HasPair(added, key, id) && HasPair(was, key, id)) && !(HasPair(removed, key, id) && HasPair(now, key, id))
  {
    hide HasPair, IsNewIn, Sorted, DistinctKeys, Clean;
    NewPairs(was, now, added, key, id);
    NewPairs(now, was, removed, key, id);
  }

  /** Nothing changed, nothing reported. */
  lemma DiffOfSame(bs: seq<Binding>, x: Binding)
    requires DistinctKeys(bs)
    ensures !IsNewIn(bs, bs, x)
  {
    hide KeyOf, NewUses, UseIds, DistinctKeys;
    if IsNewIn(bs, bs, x) {
      var c :| c in bs && NewOf(bs, c, x);
      assert HasKey(bs, KeyOf(c));
      var p :| p in bs && KeyOf(p) == KeyOf(c) && NewUses(c.uses, UseIds(p.uses)) != [];
      KeyIsOnce(bs, p, c);
      NoNewUses(c.uses);
    }
  }

  lemma NoNewUses(uses: seq<Use>)
    ensures NewUses(uses, UseIds(uses)) == []
  {
    NothingIn([], NewUses(uses, UseIds(uses)));
  }

  /** The binding is in both lists and lost uses without gaining any. */
  ghost predicate OnlyLost(was: seq<Binding>, now: seq<Binding>, key: string) {
    exists p, c :: p in was && c in now && KeyOf(p) == KeyOf(c) == key && UseIds(c.uses) < UseIds(p.uses)
  }

  /** A key is in the difference when it is new or its binding has a new use. */
  lemma NewKeys(was: seq<Binding>, now: seq<Binding>, r: seq<Binding>, c: Binding)
    requires DistinctKeys(was) && DistinctKeys(now) && c in now && forall x :: x in r <==> IsNewIn(was, now, x)
    ensures !HasKey(was, KeyOf(c)) ==> HasKey(r, KeyOf(c))
    ensures forall p :: p in was && KeyOf(p) == KeyOf(c) ==> (HasKey(r, KeyOf(c)) <==> !(UseIds(c.uses) <= UseIds(p.uses)))
  {
    hide DistinctKeys, NewUses, UseIds, KeyOf;
    if !HasKey(was, KeyOf(c)) {
      assert NewOf(was, c, c) && c in r;
    }
    forall p | p in was && KeyOf(p) == KeyOf(c)
      ensures HasKey(r, KeyOf(c)) <==> !(UseIds(c.uses) <= UseIds(p.uses))
    {
      var x := Binding(c.credentialId, c.envVar, NewUses(c.uses, UseIds(p.uses)));
      NewUsesIds(c.uses, UseIds(p.uses));
      NoUses(x.uses);
      EmptyDifference(UseIds(c.uses), UseIds(p.uses));
      if x.uses != [] {
        assert NewOf(was, c, x);
        NewKey(was, c, x);
        assert x in r;
      }
      if HasKey(r, KeyOf(c)) {
        var y :| y in r && KeyOf(y) == KeyOf(c);
        var d :| d in now && NewOf(was, d, y);
        NewKey(was, d, y);
        KeyIsOnce(now, c, d);
        assert HasKey(was, KeyOf(d));
        var q :| q in was && KeyOf(q) == KeyOf(d) && NewUses(d.uses, UseIds(q.uses)) != [];
        KeyIsOnce(was, p, q);
      }
    }
  }

  lemma EmptyDifference(a: set<string>, b: set<string>)
    ensures a - b == {} <==> a <= b
  {
    if !(a <= b) {
      var id :| id in a && id !in b;
      assert id in a - b;
    }
  }

  lemma NoUses(uses: seq<Use>)
    ensures UseIds(uses) == {} <==> uses == []
  {
    if uses != [] {
      assert uses[0] in uses && uses[0].id in UseIds(uses);
    }
  }

  lemma NoneNew(was: seq<Binding>, now: seq<Binding>, r: seq<Binding>, key: string)
    requires !HasKey(now, key) && forall x :: x in r <==> IsNewIn(was, now, x)
    ensures !HasKey(r, key)
  {
    hide KeyOf, NewOf;
    if HasKey(r, key) {
      var x :| x in r && KeyOf(x) == key;
      var c :| c in now && NewOf(was, c, x);
      NewKey(was, c, x);
    }
  }

  /** On bindings the difference is exact if and only if the binding did not
      just lose uses: one that did is reported like one that is gone. */
  lemma BindingsExactly(
    was: seq<Binding>, now: seq<Binding>, added: seq<Binding>, removed: seq<Binding>, key: string)
    requires Canonical(was) && Canonical(now)
    requires forall x :: x in added <==> IsNewIn(was, now, x)
    requires forall x :: x in removed <==> IsNewIn(now, was, x)
    ensures (HasKey(now, key) <==> (HasKey(was, key) && !HasKey(removed, key)) || HasKey(added, key)) <==>
            !OnlyLost(was, now, key)
  {
    hide KeyOf, IsNewIn, Sorted, DistinctKeys, Clean, UseIds;
    if !HasKey(now, key) {
      NoneNew(was, now, added, key);
      if HasKey(was, key) {
        var p :| p in was && KeyOf(p) == key;
        NewKeys(now, was, removed, p);
      }
    } else {
      var c :| c in now && KeyOf(c) == key;
      NewKeys(was, now, added, c);
      if HasKey(was, key) {
        var p :| p in was && KeyOf(p) == key;
        NewKeys(now, was, removed, p);
        BothThere(was, now, p, c);
      }
    }
  }

  lemma BothThere(was: seq<Binding>, now: seq<Binding>, p: Binding, c: Binding)
    requires DistinctKeys(was) && DistinctKeys(now) && p in was && c in now && KeyOf(p) == KeyOf(c)
    ensures OnlyLost(was, now, KeyOf(c)) <==> UseIds(c.uses) <= UseIds(p.uses) && !(UseIds(p.uses) <= UseIds(c.uses))
  {
    hide KeyOf, DistinctKeys, UseIds;
    if OnlyLost(was, now, KeyOf(c)) {
      var q, d :| q in was && d in now && KeyOf(q) == KeyOf(d) == KeyOf(c) && UseIds(d.uses) < UseIds(q.uses);
      KeyIsOnce(was, p, q);
      KeyIsOnce(now, c, d);
    }
  }

  lemma {:induction false} SameCut(x: string, y: string, a: string, b: string)
    requires '\0' !in x && '\0' !in y && x + "\0" + a == y + "\0" + b
    ensures x == y && a == b
  {
    var k, l := x + "\0" + a, y + "\0" + b;
    assert (x != "" ==> k[0] == x[0] && x[0] in x) && (y != "" ==> l[0] == y[0] && y[0] in y);
    if x != "" && y != "" {
      assert k[1..] == x[1..] + "\0" + a && l[1..] == y[1..] + "\0" + b;
      SameCut(x[1..], y[1..], a, b);
      assert x == [x[0]] + x[1..] && y == [y[0]] + y[1..];
    } else {
      assert k[1..] == l[1..];
      assert x == "" ==> k[1..] == a;
      assert y == "" ==> l[1..] == b;
    }
  }

  /** Two bindings share a key only if their fields agree, unless a credential
      ID contains the separator. */
  lemma KeysTellApart(a: Binding, b: Binding)
    requires '\0' !in TrimSpace(a.credentialId) && '\0' !in TrimSpace(b.credentialId)
    ensures KeyOf(a) == KeyOf(b) <==>
      TrimSpace(a.credentialId) == TrimSpace(b.credentialId) && TrimSpace(a.envVar) == TrimSpace(b.envVar)
  {
    hide TrimSpace;
    if KeyOf(a) == KeyOf(b) {
      SameCut(TrimSpace(a.credentialId), TrimSpace(b.credentialId), TrimSpace(a.envVar), TrimSpace(b.envVar));
    }
  }
}
