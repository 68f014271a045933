/**
 cmd/migrate_tenant_state.go: copying a deployment's per-tenant objects under a tenant's own
 segment, resumably, with the originals left where they are.
 */
module Migrate {
  import opened Wrappers
  import opened Sorting
  import opened Text

  type Objects = map<string, string>

  /** Not yet filed under any tenant. */
  predicate IsLegacy(prefix: string, key: string) {
    HasPrefix(key, prefix) && !HasPrefix(key, prefix + "user=")
  }

  function DestPrefix(prefix: string, uid: string): string { prefix + "user=" + uid + "/" }

  function Dest(prefix: string, uid: string, key: string): string
    requires HasPrefix(key, prefix)
  {
    DestPrefix(prefix, uid) + key[|prefix|..]
  }

  datatype Artifact = Artifact(name: string, prefix: string, perTenant: bool)

  /** `perTenantArtifacts`: two artifacts that share a prefix are migrated once. */
  method PerTenantPrefixes(all: seq<Artifact>) returns (prefixes: seq<string>)
    ensures AllDifferent(prefixes)
    ensures forall p :: p in prefixes <==> exists i :: 0 <= i < |all| && all[i].perTenant && all[i].prefix == p
  {
    prefixes := [];
    for i := 0 to |all|
      invariant AllDifferent(prefixes)
      invariant forall p :: p in prefixes <==> exists k :: 0 <= k < i && all[k].perTenant && all[k].prefix == p
    {
      if !all[i].perTenant || all[i].prefix in prefixes { continue; }
      prefixes := prefixes + [all[i].prefix];
    }
  }

  /** No artifact's prefix is inside another's. */
  predicate NotNested(prefixes: seq<string>) {
    forall i, j :: 0 <= i < |prefixes| && 0 <= j < |prefixes| && prefixes[i] != prefixes[j] ==>
      !HasPrefix(prefixes[j], prefixes[i])
  }

  // ---------------------------------------------------------------- what a run may do

  /** `x` is the copy some legacy object of `b` is due. */
  predicate IsCopyOf(b: Objects, prefix: string, uid: string, key: string, x: string) {
    key in b && IsLegacy(prefix, key) && x == Dest(prefix, uid, key)
  }

  ghost predicate IsCopy(b: Objects, prefixes: seq<string>, uid: string, x: string, bytes: string) {
    exists i, key :: 0 <= i < |prefixes| && IsCopyOf(b, prefixes[i], uid, key, x) && b[key] == bytes
  }

  predicate Untouched(b: Objects, t: Objects) { forall k :: k in b ==> k in t && t[k] == b[k] }

  /** Everything in `b` is still there unaltered, and everything new is a faithful copy. */
  ghost predicate OnlyCopies(b: Objects, t: Objects, prefixes: seq<string>, uid: string) {
    && Untouched(b, t)
    && (forall x :: x in t && x !in b ==> IsCopy(b, prefixes, uid, x, t[x]))
  }

  /** Every legacy object under the prefix has its copy. */
  ghost predicate Settled(b: Objects, prefix: string, uid: string) {
    forall key :: key in b && IsLegacy(prefix, key) ==> Dest(prefix, uid, key) in b
  }

  ghost predicate AllSettled(b: Objects, prefixes: seq<string>, uid: string) {
    forall i :: 0 <= i < |prefixes| ==> Settled(b, prefixes[i], uid)
  }

  // ---------------------------------------------------------------- the imperative copy

  class Bucket {
    var objects: Objects

    constructor (objects: Objects)
      ensures this.objects == objects
    {
      this.objects := objects;
    }

    /** `eachKey`: every key under the prefix, page after page. */
    method EachKey(prefix: string, pageSize: nat) returns (keys: seq<string>)
      requires pageSize > 0
      ensures AllDifferent(keys)
      ensures forall k :: k in keys <==> k in objects && HasPrefix(k, prefix)
    {
      keys := [];
      var left := set k | k in objects.Keys && HasPrefix(k, prefix);
      while left != {}
        invariant left <= objects.Keys && AllDifferent(keys)
        invariant forall k :: k in keys ==> k !in left
        invariant forall k :: k in keys || k in left <==> k in objects && HasPrefix(k, prefix)
        decreases |left|
      {
        ghost var before := left;
        var n := 0;
        while n < pageSize && left != {}
          invariant n <= pageSize && left <= before && (n > 0 ==> |left| < |before|)
          invariant n == 0 ==> left == before
          invariant left <= objects.Keys && AllDifferent(keys)
          invariant forall k :: k in keys ==> k !in left
          invariant forall k :: k in keys || k in left <==> k in objects && HasPrefix(k, prefix)
        {
          NonEmpty(left);
          var k :| k in left;
          keys, left := keys + [k], left - {k};
          n := n + 1;
        }
      }
    }

    /** The keys to copy: everything under the prefix not already filed under a tenant. */
    method SourceKeys(prefix: string, pageSize: nat) returns (src: seq<string>)
      requires pageSize > 0
      ensures AllDifferent(src)
      ensures forall k :: k in src <==> k in objects && IsLegacy(prefix, k)
    {
      var keys := EachKey(prefix, pageSize);
      src := [];
      for i := 0 to |keys|
        invariant AllDifferent(src)
        invariant forall k :: k in src <==> k in keys[..i] && IsLegacy(prefix, k)
      {
        assert keys[..i + 1] == keys[..i] + [keys[i]] && keys[i] !in keys[..i];
        if HasPrefix(keys[i], prefix + "user=") { continue; }
        src := src + [keys[i]];
      }
      assert keys[..|keys|] == keys;
    }

    /** `migrateOnePrefix`; `budget` is how many copies succeed before one fails. */
    method MigrateOnePrefix(prefix: string, uid: string, apply: bool, pageSize: nat, budget: nat)
      returns (todo: nat, copied: nat, skipped: nat, ok: bool)
      requires pageSize > 0
      modifies this
      ensures OnlyCopies(old(objects), objects, [prefix], uid)
      ensures ok && apply ==> Settled(objects, prefix, uid)
      ensures ok ==> todo == |Due(old(objects), prefix, uid)|
      ensures copied <= budget && copied == if apply then todo else 0
      ensures !ok ==> apply && copied == budget < |Due(old(objects), prefix, uid)|
      ensures !apply ==> objects == old(objects)
    {
      var there := EachKey(DestPrefix(prefix, uid), pageSize);
      var src := SourceKeys(prefix, pageSize);
      ghost var b := objects;
      ghost var isDue := (k: string) => HasPrefix(k, prefix) && Dest(prefix, uid, k) !in b;
      DueAreTheSources(b, prefix, uid, src);
      todo, copied, skipped, ok := CopyMissing(prefix, uid, apply, budget, there, src, isDue);
      if ok && apply { LegacyIsOld(b, objects, prefix, uid); }
    }

    /** The copy loop over the two listings. */
    method CopyMissing(prefix: string, uid: string, apply: bool, budget: nat, there: seq<string>,
                       src: seq<string>, ghost isDue: string -> bool)
      returns (todo: nat, copied: nat, skipped: nat, ok: bool)
      requires AllDifferent(src) && forall k :: k in src <==> k in objects && IsLegacy(prefix, k)
      requires forall x :: x in there <==> x in objects && HasPrefix(x, DestPrefix(prefix, uid))
      requires forall k :: k in src && IsLegacy(prefix, k) ==> (isDue(k) <==> Dest(prefix, uid, k) !in objects)
      modifies this
      ensures OnlyCopies(old(objects), objects, [prefix], uid)
      ensures ok ==> CopiedFrom(prefix, uid, old(objects), src, objects, apply)
      ensures ok ==> todo == |Filter(isDue, src)| && todo + skipped == |src|
      ensures copied <= budget && copied == if apply then todo else 0
      ensures !ok ==> apply && copied == budget < |Filter(isDue, src)|
      ensures !apply ==> objects == old(objects)
    {
      ghost var b := objects;
      todo, copied, skipped, ok := 0, 0, 0, true;
      for i := 0 to |src|
        invariant Progress(prefix, uid, b, src[..i], objects, apply)
        invariant todo == |Filter(isDue, src[..i])| && todo + skipped == i
        invariant copied <= budget && copied == if apply then todo else 0
      {
        var k := src[i];
        assert k in src;
        FilterStep(isDue, src, i);
        FiledUnder(prefix, uid, k);
        CopyStep(prefix, uid, b, src, i, objects, apply);
        var to := Dest(prefix, uid, k);
        if to in there {
          skipped := skipped + 1;
          continue;
        }
        FilterPrefix(isDue, src, i);
        if apply && copied == budget { return todo, copied, skipped, false; }
        todo := todo + 1;
        if !apply { continue; }
        objects := objects[to := objects[k]];
        copied := copied + 1;
      }
      assert src[..|src|] == src;
    }
  }

  /** Where a migration of one prefix stands after handling some of its keys. */
  ghost predicate Progress(prefix: string, uid: string, b: Objects, done: seq<string>, t: Objects, apply: bool) {
    OnlyCopies(b, t, [prefix], uid) && CopiedFrom(prefix, uid, b, done, t, apply)
  }

  lemma CopyStep(prefix: string, uid: string, b: Objects, src: seq<string>, i: nat, t: Objects, apply: bool)
    requires AllDifferent(src) && i < |src| && src[i] in b && IsLegacy(prefix, src[i])
    requires Progress(prefix, uid, b, src[..i], t, apply)
    ensures var to := Dest(prefix, uid, src[i]);
      && src[i] in t
      && (to in b || !apply ==> Progress(prefix, uid, b, src[..i + 1], t, apply))
      && (to !in b && apply ==> Progress(prefix, uid, b, src[..i + 1], t[to := t[src[i]]], apply))
  {
    var k, to := src[i], Dest(prefix, uid, src[i]);
    assert src[..i + 1] == src[..i] + [k];
    if to !in b && apply {
      NotYetCopied(b, t, prefix, uid, src, i, apply);
      assert [prefix][0] == prefix && IsCopyOf(b, prefix, uid, k, to);
      var u := t[to := t[k]];
      forall x | x in u && x !in b ensures IsCopy(b, [prefix], uid, x, u[x]) {
        if x != to { assert IsCopy(b, [prefix], uid, x, t[x]); }
      }
    }
  }

  /** The legacy objects whose copy is missing. */
  function Due(b: Objects, prefix: string, uid: string): set<string> {
    set k | k in b && IsLegacy(prefix, k) && Dest(prefix, uid, k) !in b
  }

  function Elements(s: seq<string>): set<string> { set k | k in s }

  lemma {:induction false} SizeOfUnique(s: seq<string>)
    requires AllDifferent(s)
    ensures |Elements(s)| == |s|
  {
    if s != [] {
      var init, last := s[..|s| - 1], s[|s| - 1];
      assert s == init + [last];
      assert last !in init;
      SizeOfUnique(init);
      assert Elements(s) == Elements(init) + {last};
    }
  }

  lemma {:induction false} FilterUnique(p: string -> bool, s: seq<string>)
    requires AllDifferent(s)
    ensures AllDifferent(Filter(p, s))
  {
    if s != [] {
      var init, last := s[..|s| - 1], s[|s| - 1];
      FilterUnique(p, init);
      FilterKeeps(p, init, last);
      assert last !in init;
    }
  }

  lemma DueAreTheSources(b: Objects, prefix: string, uid: string, src: seq<string>)
    requires AllDifferent(src) && forall k :: k in src <==> k in b && IsLegacy(prefix, k)
    ensures var isDue := (k: string) => HasPrefix(k, prefix) && Dest(prefix, uid, k) !in b;
      |Filter(isDue, src)| == |Due(b, prefix, uid)|
  {
    var isDue := (k: string) => HasPrefix(k, prefix) && Dest(prefix, uid, k) !in b;
    FilterUnique(isDue, src);
    SizeOfUnique(Filter(isDue, src));
    forall k ensures k in Filter(isDue, src) <==> k in Due(b, prefix, uid) { FilterKeeps(isDue, src, k); }
    assert Elements(Filter(isDue, src)) == Due(b, prefix, uid);
  }

  lemma FilterPrefix(p: string -> bool, s: seq<string>, i: nat)
    requires i < |s| && p(s[i])
    ensures |Filter(p, s[..i])| < |Filter(p, s)|
  {
    FilterStep(p, s, i);
    FilterAppend(p, s[..i + 1], s[i + 1..]);
    assert s[..i + 1] + s[i + 1..] == s;
  }

  lemma FiledUnder(prefix: string, uid: string, key: string)
    requires HasPrefix(key, prefix)
    ensures HasPrefix(Dest(prefix, uid, key), DestPrefix(prefix, uid))
  {
  }

  /** What is new came from the keys already handled, and each of those has its copy. */
  ghost predicate CopiedFrom(prefix: string, uid: string, b: Objects, done: seq<string>, t: Objects, apply: bool) {
    && (!apply ==> t == b)
    && (forall x :: x in t && x !in b ==> exists k :: k in done && IsLegacy(prefix, k) && x == Dest(prefix, uid, k))
    && (apply ==> forall k :: k in done && IsLegacy(prefix, k) ==> Dest(prefix, uid, k) in t)
  }

  lemma DestInjective(prefix: string, uid: string, a: string, b: string)
    requires HasPrefix(a, prefix) && HasPrefix(b, prefix) && Dest(prefix, uid, a) == Dest(prefix, uid, b)
    ensures a == b
  {
    var n := |DestPrefix(prefix, uid)|;
    assert a[|prefix|..] == Dest(prefix, uid, a)[n..] == Dest(prefix, uid, b)[n..] == b[|prefix|..];
    assert a == prefix + a[|prefix|..] && b == prefix + b[|prefix|..];
  }

  /** The listing taken before the first copy still tells the truth about the next key. */
  lemma NotYetCopied(b: Objects, t: Objects, prefix: string, uid: string, src: seq<string>, i: nat, apply: bool)
    requires AllDifferent(src) && i < |src| && IsLegacy(prefix, src[i])
    requires Dest(prefix, uid, src[i]) !in b && CopiedFrom(prefix, uid, b, src[..i], t, apply)
    ensures Dest(prefix, uid, src[i]) !in t
  {
    var to := Dest(prefix, uid, src[i]);
    assert src[i] !in src[..i];
    if to in t {
      var j :| j in src[..i] && IsLegacy(prefix, j) && to == Dest(prefix, uid, j);
      DestInjective(prefix, uid, j, src[i]);
    }
  }

  /** Copies under a prefix are never legacy objects of that prefix. */
  lemma CopiesAreFiled(prefix: string, uid: string, key: string)
    requires HasPrefix(key, prefix)
    ensures HasPrefix(Dest(prefix, uid, key), prefix + "user=")
    ensures !IsLegacy(prefix, Dest(prefix, uid, key))
  {
    assert Dest(prefix, uid, key) == prefix + "user=" + (uid + "/" + key[|prefix|..]);
  }

  lemma LegacyIsOld(b: Objects, t: Objects, prefix: string, uid: string)
    requires OnlyCopies(b, t, [prefix], uid)
    requires forall k :: k in b && IsLegacy(prefix, k) ==> Dest(prefix, uid, k) in t
    ensures Settled(t, prefix, uid)
  {
    forall x | x in t && x !in b ensures !IsLegacy(prefix, x) {
      var i, key :| 0 <= i < 1 && IsCopyOf(b, [prefix][i], uid, key, x) && b[key] == t[x];
      CopiesAreFiled(prefix, uid, key);
    }
  }

  // ---------------------------------------------------------------- a whole migration

  lemma {:induction false} Comparable(a: string, b: string, x: string)
    requires HasPrefix(x, a) && HasPrefix(x, b)
    ensures HasPrefix(a, b) || HasPrefix(b, a)
  {
    assert a == x[..|a|] && b == x[..|b|];
    if |a| <= |b| { assert b[..|a|] == a; } else { assert a[..|b|] == b; }
  }

  /** With no prefix inside another, a copy is a legacy object of no prefix at all. */
  lemma CopiesAreNeverLegacy(prefixes: seq<string>, i: nat, j: nat, uid: string, key: string)
    requires NotNested(prefixes) && i < |prefixes| && j < |prefixes| && HasPrefix(key, prefixes[i])
    ensures !IsLegacy(prefixes[j], Dest(prefixes[i], uid, key))
  {
    var x := Dest(prefixes[i], uid, key);
    CopiesAreFiled(prefixes[i], uid, key);
    if HasPrefix(x, prefixes[j]) {
      assert HasPrefix(x, prefixes[i]) by { assert x[..|prefixes[i]|] == prefixes[i]; }
      Comparable(prefixes[i], prefixes[j], x);
    }
  }

  /** And it is the copy of one object of one prefix only. */
  lemma CopyHasOneSource(prefixes: seq<string>, i: nat, a: string, j: nat, b: string, uid: string)
    requires NotNested(prefixes) && i < |prefixes| && j < |prefixes|
    requires HasPrefix(a, prefixes[i]) && HasPrefix(b, prefixes[j])
    requires Dest(prefixes[i], uid, a) == Dest(prefixes[j], uid, b)
    ensures a == b && prefixes[i] == prefixes[j]
  {
    var x := Dest(prefixes[i], uid, a);
    assert x[..|prefixes[i]|] == prefixes[i] && x[..|prefixes[j]|] == prefixes[j];
    Comparable(prefixes[i], prefixes[j], x);
    DestInjective(prefixes[i], uid, a, b);
  }

  /** A later run's copies are copies of what was there at the start. */
  lemma CopiesCompose(b: Objects, m: Objects, t: Objects, prefixes: seq<string>, uid: string)
    requires NotNested(prefixes) && OnlyCopies(b, m, prefixes, uid) && OnlyCopies(m, t, prefixes, uid)
    ensures OnlyCopies(b, t, prefixes, uid)
  {
    forall x | x in t && x !in b ensures IsCopy(b, prefixes, uid, x, t[x]) {
      if x !in m {
        var j, key :| 0 <= j < |prefixes| && IsCopyOf(m, prefixes[j], uid, key, x) && m[key] == t[x];
        NewIsNotLegacy(b, m, prefixes, uid, j, key);
        assert IsCopyOf(b, prefixes[j], uid, key, x) && b[key] == t[x];
      }
    }
  }

  lemma NewIsNotLegacy(b: Objects, m: Objects, prefixes: seq<string>, uid: string, j: nat, key: string)
    requires NotNested(prefixes) && OnlyCopies(b, m, prefixes, uid)
    requires j < |prefixes| && key in m && IsLegacy(prefixes[j], key)
    ensures key in b && b[key] == m[key]
  {
    if key !in b {
      var i, k :| 0 <= i < |prefixes| && IsCopyOf(b, prefixes[i], uid, k, key) && b[k] == m[key];
      CopiesAreNeverLegacy(prefixes, i, j, uid, k);
    }
  }

  /** A second run over settled prefixes copies nothing. */
  lemma SecondRunCopiesNothing(b: Objects, t: Objects, prefixes: seq<string>, uid: string)
    requires AllSettled(b, prefixes, uid) && OnlyCopies(b, t, prefixes, uid)
    ensures t == b
  {
    assert forall i :: 0 <= i < |prefixes| ==> Settled(b, prefixes[i], uid);
    assert t.Keys == b.Keys;
  }

  /** Any way of getting there gets to the same place: however a migration was cut off and
      resumed, once everything is settled the bucket is exactly what one uninterrupted run
      makes of it. */
  lemma ResumedEqualsUninterrupted(b: Objects, cut: Objects, resumed: Objects, whole: Objects,
                                   prefixes: seq<string>, uid: string)
    requires NotNested(prefixes)
    requires OnlyCopies(b, cut, prefixes, uid) && OnlyCopies(cut, resumed, prefixes, uid)
    requires OnlyCopies(b, whole, prefixes, uid)
    requires AllSettled(resumed, prefixes, uid) && AllSettled(whole, prefixes, uid)
    ensures resumed == whole
  {
    CopiesCompose(b, cut, resumed, prefixes, uid);
    forall x | x in resumed ensures x in whole && whole[x] == resumed[x] {
      SettledHas(b, resumed, whole, prefixes, uid, x);
    }
    forall x | x in whole ensures x in resumed { SettledHas(b, whole, resumed, prefixes, uid, x); }
  }

  lemma SettledHas(b: Objects, t: Objects, u: Objects, prefixes: seq<string>, uid: string, x: string)
    requires NotNested(prefixes) && OnlyCopies(b, t, prefixes, uid) && OnlyCopies(b, u, prefixes, uid)
    requires AllSettled(u, prefixes, uid) && x in t
    ensures x in u && u[x] == t[x]
  {
    if x !in b {
      var i, key :| 0 <= i < |prefixes| && IsCopyOf(b, prefixes[i], uid, key, x) && b[key] == t[x];
      assert Settled(u, prefixes[i], uid) && key in u;
      var j, other :| 0 <= j < |prefixes| && IsCopyOf(b, prefixes[j], uid, other, x) && b[other] == u[x];
      CopyHasOneSource(prefixes, i, key, j, other, uid);
    }
  }

  lemma OnePrefixOfMany(b: Objects, t: Objects, prefixes: seq<string>, i: nat, uid: string)
    requires i < |prefixes| && OnlyCopies(b, t, [prefixes[i]], uid)
    ensures OnlyCopies(b, t, prefixes, uid)
  {
    forall x | x in t && x !in b ensures IsCopy(b, prefixes, uid, x, t[x]) {
      var j, key :| 0 <= j < 1 && IsCopyOf(b, [prefixes[i]][j], uid, key, x) && b[key] == t[x];
      assert IsCopyOf(b, prefixes[i], uid, key, x);
    }
  }

  /** Migrating one prefix does not unsettle another. */
  lemma StaysSettled(m: Objects, t: Objects, prefixes: seq<string>, i: nat, uid: string)
    requires NotNested(prefixes) && OnlyCopies(m, t, prefixes, uid)
    requires i < |prefixes| && Settled(m, prefixes[i], uid)
    ensures Settled(t, prefixes[i], uid)
  {
    forall key | key in t && IsLegacy(prefixes[i], key) ensures Dest(prefixes[i], uid, key) in t {
      NewIsNotLegacy(m, t, prefixes, uid, i, key);
    }
  }

  /** One more prefix done: still only copies, and the earlier prefixes stay settled. */
  lemma OneMorePrefix(b: Objects, m: Objects, t: Objects, prefixes: seq<string>, i: nat, uid: string)
    requires NotNested(prefixes) && i < |prefixes|
    requires OnlyCopies(b, m, prefixes, uid) && OnlyCopies(m, t, [prefixes[i]], uid)
    ensures OnlyCopies(b, t, prefixes, uid)
    ensures forall j :: 0 <= j < i && Settled(m, prefixes[j], uid) ==> Settled(t, prefixes[j], uid)
  {
    OnePrefixOfMany(m, t, prefixes, i, uid);
    CopiesCompose(b, m, t, prefixes, uid);
    forall j | 0 <= j < i && Settled(m, prefixes[j], uid) ensures Settled(t, prefixes[j], uid) {
      StaysSettled(m, t, prefixes, j, uid);
    }
  }

  /** `runMigrateTenantState` over every per-tenant prefix. */
  method MigrateAll(bucket: Bucket, prefixes: seq<string>, uid: string, apply: bool, pageSize: nat, budget: nat)
    returns (copied: nat, ok: bool)
    requires pageSize > 0
    modifies bucket
    ensures Untouched(old(bucket.objects), bucket.objects)
    ensures NotNested(prefixes) ==> OnlyCopies(old(bucket.objects), bucket.objects, prefixes, uid)
    ensures NotNested(prefixes) && ok && apply ==> AllSettled(bucket.objects, prefixes, uid)
    ensures !apply ==> ok && bucket.objects == old(bucket.objects)
    ensures !ok ==> copied == budget
  {
    ghost var b := bucket.objects;
    copied, ok := 0, true;
    for i := 0 to |prefixes|
      invariant Untouched(b, bucket.objects) && ok
      invariant NotNested(prefixes) ==> OnlyCopies(b, bucket.objects, prefixes, uid)
      invariant NotNested(prefixes) && apply ==>
        forall j :: 0 <= j < i ==> Settled(bucket.objects, prefixes[j], uid)
      invariant copied <= budget && (!apply ==> bucket.objects == b)
    {
      ghost var m := bucket.objects;
      var todo, n, skipped, done := bucket.MigrateOnePrefix(prefixes[i], uid, apply, pageSize, budget - copied);
      copied := copied + n;
      if NotNested(prefixes) { OneMorePrefix(b, m, bucket.objects, prefixes, i, uid); }
      if !done { return copied, false; }
    }
  }

  /** The hypothesis is needed: with one prefix inside another, a copy made for the inner
      one is a legacy object of the outer, due a copy of its own with a second user segment. */
  lemma NestedPrefixCopiesACopy(outer: string, inner: string, uid: string, key: string)
    requires HasPrefix(inner, outer) && inner != outer && HasPrefix(key, inner)
    requires inner[|outer|] != 'u'
    ensures var copy := Dest(inner, uid, key);
      && IsLegacy(outer, copy)
      && Dest(outer, uid, copy) == DestPrefix(outer, uid) + inner[|outer|..] + "user=" + uid + "/" + key[|inner|..]
  {
    var copy := Dest(inner, uid, key);
    assert copy[..|outer|] == outer && copy[|outer|] == inner[|outer|];
    var c := copy[|outer|];
    assert (outer + "user=")[|outer|] == 'u';
    assert HasPrefix(copy, outer + "user=") ==> c == 'u';
    assert copy[|outer|..] == inner[|outer|..] + "user=" + uid + "/" + key[|inner|..];
  }

  /** The prefixes `perTenantArtifacts` draws from the layout table. */
  const LayoutPrefixes: seq<string> := [
    "analysis/trade-offers/", "analysis/grades/", "analysis/lineup-gaps/", "backtest/", "lineup/",
    "trades/", "reports/", "runledger/", "runs/", "notifications/", "session/"]

  predicate Differ(a: string, b: string, k: nat) { k < |a| && k < |b| && a[k] != b[k] }

  lemma DifferIsNoPrefix(a: string, b: string, k: nat)
    requires Differ(a, b, k)
    ensures !HasPrefix(a, b) && !HasPrefix(b, a)
  {
  }

  /** None of them lies inside another: any two differ within their first ten characters. */
  lemma LayoutIsNotNested()
    ensures NotNested(LayoutPrefixes)
  {
    forall i, j | 0 <= i < |LayoutPrefixes| && 0 <= j < |LayoutPrefixes| && LayoutPrefixes[i] != LayoutPrefixes[j]
      ensures !HasPrefix(LayoutPrefixes[j], LayoutPrefixes[i])
    {
      var a, b := LayoutPrefixes[i], LayoutPrefixes[j];
      assert Differ(a, b, 0) || Differ(a, b, 1) || Differ(a, b, 3) || Differ(a, b, 9);
      var k: nat :| Differ(a, b, k);
      DifferIsNoPrefix(a, b, k);
    }
  }
}
