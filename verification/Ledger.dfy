/**
 opsnotify/ledger.go: the newest run records across every tenant's partition, fetched
 concurrently, and the chunked read that stops once it has reached past a cutoff.

 Times are whole seconds. A record whose start does not parse has none.
 */
module Ledger {
  import opened Wrappers
  import opened Sorting
  import opened Text

  datatype Record = Record(id: string, start: Option<int>)

  type Reader = string -> Option<Record>

  const HeartbeatCap := 1500
  const Chunk := 32

  // ---------------------------------------------------------------- keys

  predicate IsLedgerRecord(base: string) {
    && HasSuffix(base, ".json")
    && var name := base[..|base| - 5];
    match IndexOf(name, '-')
    case None => false
    case Some(i) => i > 0 && i + 1 < |name| && forall k :: 0 <= k < i ==> IsDigit(name[k])
  }

  function Basename(key: string): string { AfterLast(key, '/') }

  predicate KeyLeq(a: string, b: string) {
    if Basename(a) != Basename(b) then LexLeq(Basename(a), Basename(b)) else LexLeq(a, b)
  }

  lemma KeyLeqIsTotalOrder()
    ensures TotalPreorder(KeyLeq) && AntiSymmetric(KeyLeq)
  {
    LexLeqIsTotalOrder();
  }

  predicate IsRecordKey(key: string) { IsLedgerRecord(Basename(key)) }

  function NewestOf(keys: seq<string>, limit: nat): seq<string> {
    var sorted := Sort(KeyLeq, keys);
    if |sorted| > limit then sorted[..limit] else sorted
  }

  function Newest(walk: seq<string>, limit: nat): seq<string> {
    NewestOf(Filter(IsRecordKey, walk), limit)
  }

  method Keys(walk: seq<string>, limit: nat) returns (keys: seq<string>)
    ensures keys == Newest(walk, limit)
  {
    keys := [];
    for i := 0 to |walk|
      invariant keys == Filter(IsRecordKey, walk[..i])
    {
      FilterStep(IsRecordKey, walk, i);
      if IsRecordKey(walk[i]) { keys := keys + [walk[i]]; }
    }
    assert walk[..|walk|] == walk;
    keys := Sort(KeyLeq, keys);
    if |keys| > limit { keys := keys[..limit]; }
  }

  /** Which partition an object sits in, and where the listing meets it, does not matter. */
  lemma ListingOrderDoesNotMatter(walk: seq<string>, other: seq<string>, limit: nat)
    requires multiset(walk) == multiset(other)
    ensures Newest(walk, limit) == Newest(other, limit)
  {
    var a, b := Filter(IsRecordKey, walk), Filter(IsRecordKey, other);
    forall key ensures multiset(a)[key] == multiset(b)[key] {
      FilterCount(IsRecordKey, walk, key);
      FilterCount(IsRecordKey, other, key);
    }
    assert multiset(a) == multiset(b);
    SortIsCanonical(a, b);
  }

  lemma SortIsCanonical(a: seq<string>, b: seq<string>)
    requires multiset(a) == multiset(b)
    ensures Sort(KeyLeq, a) == Sort(KeyLeq, b)
  {
    KeyLeqIsTotalOrder();
    SortSorts(KeyLeq, a);
    SortSorts(KeyLeq, b);
    SortedPermUnique(KeyLeq, Sort(KeyLeq, a), Sort(KeyLeq, b));
  }

  /** The listed keys are in order, and every record key left out comes after all of them. */
  lemma NewestAreNewest(walk: seq<string>, limit: nat, key: string)
    ensures Sorted(KeyLeq, Newest(walk, limit)) && |Newest(walk, limit)| <= limit
    ensures key in Newest(walk, limit) ==> key in walk && IsRecordKey(key)
    ensures key in walk && IsRecordKey(key) && key !in Newest(walk, limit) ==>
      |Newest(walk, limit)| == limit && forall k :: k in Newest(walk, limit) ==> KeyLeq(k, key)
  {
    FilterKeeps(IsRecordKey, walk, key);
    FirstOfSorted(Filter(IsRecordKey, walk), limit, key);
  }

  lemma FirstOfSorted(keys: seq<string>, limit: nat, key: string)
    ensures Sorted(KeyLeq, NewestOf(keys, limit)) && |NewestOf(keys, limit)| <= limit
    ensures key in NewestOf(keys, limit) ==> key in keys
    ensures key in keys && key !in NewestOf(keys, limit) ==>
      |NewestOf(keys, limit)| == limit && forall k :: k in NewestOf(keys, limit) ==> KeyLeq(k, key)
  {
    KeyLeqIsTotalOrder();
    SortSorts(KeyLeq, keys);
    var sorted := Sort(KeyLeq, keys);
    SameElements(keys, sorted);
    if key in sorted && |sorted| > limit && key !in sorted[..limit] { PrefixOfSorted(sorted, limit, key); }
  }

  lemma PrefixOfSorted(sorted: seq<string>, limit: nat, key: string)
    requires Sorted(KeyLeq, sorted) && key in sorted && limit < |sorted| && key !in sorted[..limit]
    ensures forall k :: k in sorted[..limit] ==> KeyLeq(k, key)
  {
    var j :| 0 <= j < |sorted| && sorted[j] == key;
    assert forall i :: 0 <= i < limit ==> sorted[..limit][i] == sorted[i];
    forall k | k in sorted[..limit] ensures KeyLeq(k, key) {
      var i :| 0 <= i < limit && sorted[..limit][i] == k;
      assert sorted[i] == k;
    }
  }

  // ---------------------------------------------------------------- fetching

  function Readable(keys: seq<string>, read: Reader): seq<Record> {
    if keys == [] then []
    else
      Readable(keys[..|keys| - 1], read) +
      match read(keys[|keys| - 1]) case Some(r) => [r] case None => []
  }

  /** `order` is some order in which all of `n` fetches complete. */
  ghost predicate Completes(order: seq<nat>, n: nat) {
    && (forall i :: 0 <= i < n ==> i in order)
    && (forall k :: 0 <= k < |order| ==> order[k] < n)
  }

  /** One chunk, each fetch filling its own slot, whatever order they complete in. */
  method Fetch(keys: seq<string>, read: Reader, order: seq<nat>) returns (recs: seq<Record>)
    requires Completes(order, |keys|)
    ensures recs == Readable(keys, read)
  {
    var out := new Option<Record>[|keys|](_ => None);
    for k := 0 to |order|
      invariant forall j :: 0 <= j < k ==> out[order[j]] == read(keys[order[j]])
    {
      out[order[k]] := read(keys[order[k]]);
    }
    assert forall i :: 0 <= i < |keys| ==> i in order && out[i] == read(keys[i]);
    recs := [];
    for i := 0 to |keys|
      invariant recs == Readable(keys[..i], read)
    {
      assert keys[..i + 1][..i] == keys[..i];
      if out[i].Some? { recs := recs + [out[i].value]; }
    }
    assert keys[..|keys|] == keys;
  }

  // ---------------------------------------------------------------- since

  predicate Before(r: Record, cutoff: int) { r.start.Some? && r.start.value < cutoff }

  function Kept(recs: seq<Record>, cutoff: int): seq<Record> {
    Filter((r: Record) => !Before(r, cutoff), recs)
  }

  predicate Reached(recs: seq<Record>, cutoff: int) {
    exists i :: 0 <= i < |recs| && Before(recs[i], cutoff)
  }

  function ChunkOf(keys: seq<string>): seq<string> { if |keys| > Chunk then keys[..Chunk] else keys }

  function SinceFrom(keys: seq<string>, read: Reader, cutoff: int): seq<Record>
    decreases |keys|
  {
    if keys == [] then []
    else
      var chunk := ChunkOf(keys);
      var recs := Readable(chunk, read);
      if Reached(recs, cutoff) then Kept(recs, cutoff)
      else Kept(recs, cutoff) + SinceFrom(keys[|chunk|..], read, cutoff)
  }

  /** One chunk of the loop: append what is not too old, and note whether any was. */
  method AppendKept(recs: seq<Record>, chunk: seq<Record>, cutoff: int)
    returns (more: seq<Record>, reached: bool)
    ensures more == recs + Kept(chunk, cutoff)
    ensures reached <==> Reached(chunk, cutoff)
  {
    more, reached := recs, false;
    for i := 0 to |chunk|
      invariant more == recs + Kept(chunk[..i], cutoff)
      invariant reached <==> Reached(chunk[..i], cutoff)
    {
      FilterStep((r: Record) => !Before(r, cutoff), chunk, i);
      ReachedGrows(chunk[..i], chunk[i], cutoff);
      assert chunk[..i + 1] == chunk[..i] + [chunk[i]];
      if Before(chunk[i], cutoff) {
        reached := true;
      } else {
        more := more + [chunk[i]];
      }
    }
    assert chunk[..|chunk|] == chunk;
  }

  /** What one chunk contributes: all that is left when it reached past the cutoff. */
  lemma OneChunk(recs: seq<Record>, left: seq<string>, read: Reader, cutoff: int)
    requires left != []
    ensures var got := Readable(ChunkOf(left), read);
      recs + SinceFrom(left, read, cutoff) ==
      if Reached(got, cutoff) then recs + Kept(got, cutoff)
      else (recs + Kept(got, cutoff)) + SinceFrom(left[|ChunkOf(left)|..], read, cutoff)
  {
    var kept, rest := Kept(Readable(ChunkOf(left), read), cutoff), left[|ChunkOf(left)|..];
    Regroup(recs, kept, SinceFrom(rest, read, cutoff));
  }

  lemma Regroup(a: seq<Record>, b: seq<Record>, c: seq<Record>)
    ensures a + (b + c) == (a + b) + c
  {
  }

  method ReadChunk(left: seq<string>, read: Reader, cutoff: int, order: seq<nat>, recs: seq<Record>)
    returns (more: seq<Record>, reached: bool)
    requires Completes(order, |ChunkOf(left)|)
    ensures more == recs + Kept(Readable(ChunkOf(left), read), cutoff)
    ensures reached <==> Reached(Readable(ChunkOf(left), read), cutoff)
  {
    var got := Fetch(ChunkOf(left), read, order);
    more, reached := AppendKept(recs, got, cutoff);
  }

  method SinceOver(keys: seq<string>, read: Reader, cutoff: int, orders: nat -> seq<nat>)
    returns (recs: seq<Record>)
    requires forall n :: Completes(orders(n), n)
    ensures recs == SinceFrom(keys, read, cutoff)
  {
    recs := [];
    var left := keys;
    ghost var all := SinceFrom(keys, read, cutoff);
    while left != []
      invariant recs + SinceFrom(left, read, cutoff) == all
      decreases |left|
    {
      OneChunk(recs, left, read, cutoff);
      var n := |ChunkOf(left)|;
      var reached: bool;
      recs, reached := ReadChunk(left, read, cutoff, orders(n), recs);
      if reached { return; }
      left := left[n..];
    }
  }

  method Since(walk: seq<string>, read: Reader, cutoff: int, orders: nat -> seq<nat>)
    returns (recs: seq<Record>)
    requires forall n :: Completes(orders(n), n)
    ensures recs == SinceFrom(Newest(walk, HeartbeatCap), read, cutoff)
  {
    var keys := Keys(walk, HeartbeatCap);
    recs := SinceOver(keys, read, cutoff, orders);
  }

  lemma ReachedGrows(recs: seq<Record>, r: Record, cutoff: int)
    ensures Reached(recs + [r], cutoff) <==> Reached(recs, cutoff) || Before(r, cutoff)
  {
    var more := recs + [r];
    assert more[|recs|] == r;
    assert forall i :: 0 <= i < |recs| ==> more[i] == recs[i];
  }

  // ---------------------------------------------------------------- the filter it equals

  function Dated(recs: seq<Record>): seq<Record> { Filter((r: Record) => r.start.Some?, recs) }

  /** The plain reading of the promise: the dated records at or after the cutoff, in order. */
  function StartedSince(recs: seq<Record>, cutoff: int): seq<Record> {
    Filter((r: Record) => r.start.Some? && r.start.value >= cutoff, recs)
  }

  ghost predicate TimeOrdered(keys: seq<string>, read: Reader) {
    forall i, j :: 0 <= i < j < |keys| && IsDated(read, keys[i]) && IsDated(read, keys[j]) ==>
      read(keys[j]).value.start.value <= read(keys[i]).value.start.value
  }

  predicate IsDated(read: Reader, key: string) { read(key).Some? && read(key).value.start.Some? }

  lemma {:induction false} ReadableAppend(a: seq<string>, b: seq<string>, read: Reader)
    ensures Readable(a + b, read) == Readable(a, read) + Readable(b, read)
    decreases |b|
  {
    if b == [] { assert a + b == a; }
    else {
      assert (a + b)[..|a + b| - 1] == a + b[..|b| - 1];
      ReadableAppend(a, b[..|b| - 1], read);
    }
  }

  lemma DatedOfKept(recs: seq<Record>, cutoff: int)
    ensures Dated(Kept(recs, cutoff)) == StartedSince(recs, cutoff)
  {
    FilterTwice((r: Record) => r.start.Some?, (r: Record) => !Before(r, cutoff),
                (r: Record) => r.start.Some? && r.start.value >= cutoff, recs);
  }

  /** Every readable record comes from one of the keys. */
  lemma {:induction false} ReadableFrom(keys: seq<string>, read: Reader, r: Record)
    requires r in Readable(keys, read)
    ensures exists i :: 0 <= i < |keys| && read(keys[i]) == Some(r)
  {
    var n := |keys| - 1;
    if read(keys[n]) != Some(r) {
      ReadableFrom(keys[..n], read, r);
      var i :| 0 <= i < n && read(keys[..n][i]) == Some(r);
      assert read(keys[i]) == Some(r);
    }
  }

  /** Once a chunk reached past the cutoff, nothing behind it started since. */
  lemma BeyondTheReach(keys: seq<string>, read: Reader, cutoff: int)
    requires TimeOrdered(keys, read) && Reached(Readable(ChunkOf(keys), read), cutoff)
    ensures StartedSince(Readable(keys[|ChunkOf(keys)|..], read), cutoff) == []
  {
    var chunk := ChunkOf(keys);
    var recs := Readable(chunk, read);
    var k :| 0 <= k < |recs| && Before(recs[k], cutoff);
    ReadableFrom(chunk, read, recs[k]);
    var i :| 0 <= i < |chunk| && read(chunk[i]) == Some(recs[k]);
    assert keys[i] == chunk[i] && IsDated(read, keys[i]);
    var rest := keys[|chunk|..];
    forall r | r in Readable(rest, read) && r.start.Some? ensures r.start.value < cutoff {
      ReadableFrom(rest, read, r);
      var j :| 0 <= j < |rest| && read(rest[j]) == Some(r);
      assert keys[|chunk| + j] == rest[j] && IsDated(read, keys[|chunk| + j]);
    }
    FilterNone((r: Record) => r.start.Some? && r.start.value >= cutoff, Readable(rest, read));
  }

  lemma StartedSinceSplits(a: seq<string>, b: seq<string>, read: Reader, cutoff: int)
    ensures StartedSince(Readable(a + b, read), cutoff) ==
      StartedSince(Readable(a, read), cutoff) + StartedSince(Readable(b, read), cutoff)
  {
    ReadableAppend(a, b, read);
    FilterAppend((r: Record) => r.start.Some? && r.start.value >= cutoff, Readable(a, read), Readable(b, read));
  }

  lemma RestIsTimeOrdered(keys: seq<string>, n: nat, read: Reader)
    requires n <= |keys| && TimeOrdered(keys, read)
    ensures TimeOrdered(keys[n..], read)
  {
    var rest := keys[n..];
    assert forall i :: 0 <= i < |rest| ==> rest[i] == keys[n + i];
  }

  lemma StopHere(keys: seq<string>, read: Reader, cutoff: int)
    requires keys != [] && TimeOrdered(keys, read) && Reached(Readable(ChunkOf(keys), read), cutoff)
    ensures Dated(SinceFrom(keys, read, cutoff)) == StartedSince(Readable(keys, read), cutoff)
  {
    var n := |ChunkOf(keys)|;
    assert keys == ChunkOf(keys) + keys[n..];
    StartedSinceSplits(ChunkOf(keys), keys[n..], read, cutoff);
    BeyondTheReach(keys, read, cutoff);
    DatedOfKept(Readable(ChunkOf(keys), read), cutoff);
  }

  lemma DatedOfKeptThen(recs: seq<Record>, cutoff: int, tail: seq<Record>)
    ensures Dated(Kept(recs, cutoff) + tail) == StartedSince(recs, cutoff) + Dated(tail)
  {
    DatedOfKept(recs, cutoff);
    FilterAppend((r: Record) => r.start.Some?, Kept(recs, cutoff), tail);
  }

  lemma GoOn(keys: seq<string>, read: Reader, cutoff: int, tail: seq<Record>)
    requires keys != [] && !Reached(Readable(ChunkOf(keys), read), cutoff)
    requires tail == SinceFrom(keys[|ChunkOf(keys)|..], read, cutoff)
    requires Dated(tail) == StartedSince(Readable(keys[|ChunkOf(keys)|..], read), cutoff)
    ensures Dated(SinceFrom(keys, read, cutoff)) == StartedSince(Readable(keys, read), cutoff)
  {
    var chunk := ChunkOf(keys);
    assert keys == chunk + keys[|chunk|..];
    StartedSinceSplits(chunk, keys[|chunk|..], read, cutoff);
    DatedOfKeptThen(Readable(chunk, read), cutoff, tail);
  }

  /** The dated part of the early-stopping read is exactly the filter over every key. */
  lemma {:induction false} SinceIsTheFilter(keys: seq<string>, read: Reader, cutoff: int)
    requires TimeOrdered(keys, read)
    ensures Dated(SinceFrom(keys, read, cutoff)) == StartedSince(Readable(keys, read), cutoff)
    decreases |keys|
  {
    if keys != [] {
      if Reached(Readable(ChunkOf(keys), read), cutoff) {
        StopHere(keys, read, cutoff);
      } else {
        RestIsTimeOrdered(keys, |ChunkOf(keys)|, read);
        SinceIsTheFilter(keys[|ChunkOf(keys)|..], read, cutoff);
        GoOn(keys, read, cutoff, SinceFrom(keys[|ChunkOf(keys)|..], read, cutoff));
      }
    }
  }

  predicate AllDated(recs: seq<Record>) { forall r :: r in recs ==> r.start.Some? }

  /** The keys the read fetches before it stops. */
  function Fetched(keys: seq<string>, read: Reader, cutoff: int): seq<string>
    decreases |keys|
  {
    if keys == [] then []
    else
      var chunk := ChunkOf(keys);
      if Reached(Readable(chunk, read), cutoff) then chunk
      else chunk + Fetched(keys[|chunk|..], read, cutoff)
  }

  lemma AllDatedKept(recs: seq<Record>, cutoff: int)
    ensures AllDated(Kept(recs, cutoff)) <==> AllDated(recs)
  {
    forall r | r in recs ensures r in Kept(recs, cutoff) <==> !Before(r, cutoff) {
      FilterKeeps((r: Record) => !Before(r, cutoff), recs, r);
    }
    forall r | r in Kept(recs, cutoff) ensures r in recs {
      FilterKeeps((r: Record) => !Before(r, cutoff), recs, r);
    }
  }

  lemma {:induction false} AllDatedSince(keys: seq<string>, read: Reader, cutoff: int)
    ensures AllDated(SinceFrom(keys, read, cutoff)) <==>
            AllDated(Readable(Fetched(keys, read, cutoff), read))
    decreases |keys|
  {
    if keys != [] {
      var chunk := ChunkOf(keys);
      var rest := keys[|chunk|..];
      var recs := Readable(chunk, read);
      AllDatedKept(recs, cutoff);
      if !Reached(recs, cutoff) {
        AllDatedSince(rest, read, cutoff);
        ReadableAppend(chunk, Fetched(rest, read, cutoff), read);
      }
    }
  }

  lemma DatedIsAll(recs: seq<Record>)
    ensures AllDated(recs) <==> Dated(recs) == recs
    ensures AllDated(Dated(recs))
  {
    FilterAll((r: Record) => r.start.Some?, recs);
    forall r | r in Dated(recs) ensures r.start.Some? {
      FilterKeeps((r: Record) => r.start.Some?, recs, r);
    }
  }

  /** The read is exactly the records started since the cutoff if and only if no record it
      fetched lacks a start: an undated one is kept, however old. */
  lemma SinceIsExactlyTheFilter(keys: seq<string>, read: Reader, cutoff: int)
    requires TimeOrdered(keys, read)
    ensures SinceFrom(keys, read, cutoff) == StartedSince(Readable(keys, read), cutoff) <==>
            AllDated(Readable(Fetched(keys, read, cutoff), read))
  {
    SinceIsTheFilter(keys, read, cutoff);
    AllDatedSince(keys, read, cutoff);
    DatedIsAll(SinceFrom(keys, read, cutoff));
  }

  /** One undated record is enough: it is returned whatever the cutoff. */
  lemma UndatedRecordIsKept(key: string, r: Record, cutoff: int)
    requires r.start.None?
    ensures var read := (k: string) => if k == key then Some(r) else None;
      SinceFrom([key], read, cutoff) == [r] && StartedSince(Readable([key], read), cutoff) == []
  {
    var read := (k: string) => if k == key then Some(r) else None;
    assert read(key) == Some(r);
    OneUndated(key, read, r, cutoff);
  }

  /** The read stops in time: it fetches at most one chunk past the first record it can tell is
      before the cutoff, however long the ledger. */
  lemma {:induction false} ReadStopsWithinAChunk(keys: seq<string>, read: Reader, cutoff: int, k: nat)
    requires k < |keys| && read(keys[k]).Some? && Before(read(keys[k]).value, cutoff)
    ensures |Fetched(keys, read, cutoff)| <= k + 32
    decreases |keys|
  {
    var chunk := ChunkOf(keys);
    if k < |chunk| {
      assert chunk[k] == keys[k];
      ReadableHas(chunk, read, k);
    } else {
      var rest := keys[|chunk|..];
      assert rest[k - |chunk|] == keys[k];
      ReadStopsWithinAChunk(rest, read, cutoff, k - |chunk|);
    }
  }

  lemma {:induction false} ReadableHas(keys: seq<string>, read: Reader, k: nat)
    requires k < |keys| && read(keys[k]).Some?
    ensures read(keys[k]).value in Readable(keys, read)
  {
    if k < |keys| - 1 { ReadableHas(keys[..|keys| - 1], read, k); }
  }

  lemma SinceOneChunk(keys: seq<string>, read: Reader, cutoff: int)
    requires 0 < |keys| <= Chunk
    ensures SinceFrom(keys, read, cutoff) == Kept(Readable(keys, read), cutoff)
  {
    assert ChunkOf(keys) == keys && keys[|keys|..] == [];
    assert SinceFrom(keys[|keys|..], read, cutoff) == [];
  }

  lemma OneUndated(key: string, read: Reader, r: Record, cutoff: int)
    requires r.start.None? && read(key) == Some(r)
    ensures SinceFrom([key], read, cutoff) == [r] && StartedSince(Readable([key], read), cutoff) == []
  {
    SinceOneChunk([key], read, cutoff);
    OneReadable(key, read, r);
    FilterAll((x: Record) => !Before(x, cutoff), [r]);
    FilterNone((x: Record) => x.start.Some? && x.start.value >= cutoff, [r]);
  }

  lemma OneReadable(key: string, read: Reader, r: Record)
    requires read(key) == Some(r)
    ensures Readable([key], read) == [r]
  {
    assert [key][..0] == [];
  }

  // ---------------------------------------------------------------- why keys are time-ordered

  const InvBase := 9999999999

  /** `lineupapi.RunKey` with its extension, for a start within ten digits of the epoch. */
  function RunKey(start: Option<nat>, id: string): string
    requires start.Some? ==> start.value <= InvBase
  {
    Padded(10, if start.Some? then InvBase - start.value else InvBase) + "-" + id + ".json"
  }

  /** Every readable record was stored under its own run key. */
  ghost predicate KeyedByStart(keys: seq<string>, read: Reader) {
    forall i :: 0 <= i < |keys| && read(keys[i]).Some? ==> IsKeyOf(keys[i], read(keys[i]).value)
  }

  predicate IsKeyOf(key: string, r: Record) {
    && (r.start.Some? ==> 0 <= r.start.value <= InvBase)
    && Basename(key) == RunKey(if r.start.Some? then Some(r.start.value) else None, r.id)
  }

  lemma PowersOfTen()
    ensures Pow10(10) == 1_0000000000
  {
    assert Pow10(2) == 100;
    assert Pow10(4) == 10000;
    assert Pow10(6) == 1000000;
    assert Pow10(8) == 100000000;
  }

  lemma StampOrder(width: nat, m: nat, p: string, n: nat, q: string)
    requires m < Pow10(width) && n < Pow10(width)
    requires LexLeq(Padded(width, m) + p, Padded(width, n) + q)
    ensures m <= n
  {
    PaddedOrder(width, m, n);
    LexLeqAppend(Padded(width, m), Padded(width, n), p, q);
  }

  /** An earlier run key is a later start: zero padding makes text order the number order. */
  lemma RunKeyOrder(a: nat, x: string, b: nat, y: string)
    requires a <= InvBase && b <= InvBase && LexLeq(RunKey(Some(a), x), RunKey(Some(b), y))
    ensures b <= a
  {
    var width: nat := 10;
    PowersOfTen();
    var s, t := Padded(width, InvBase - a), Padded(width, InvBase - b);
    assert s + "-" + x + ".json" == s + ("-" + x + ".json");
    assert t + "-" + y + ".json" == t + ("-" + y + ".json");
    StampOrder(width, InvBase - a, "-" + x + ".json", InvBase - b, "-" + y + ".json");
  }

  lemma BasenameIn(dir: string, base: string)
    requires '/' !in base
    ensures Basename(dir + "/" + base) == base && Basename(base) == base
  {
    var key := dir + "/" + base;
    var r := Basename(key);
    assert key[|dir|] == '/' && key[|dir| + 1..] == base;
    assert forall i :: 0 <= i < |base| ==> key[|dir| + 1 + i] == base[i];
    assert |r| == |base|;
  }

  lemma {:induction false} DashAfterDigits(stamp: string, id: string)
    requires '-' !in stamp
    ensures IndexOf(stamp + "-" + id, '-') == Some(|stamp|)
  {
    var name := stamp + "-" + id;
    if stamp == [] {
      assert name[0] == '-';
    } else {
      assert name[0] == stamp[0] && name[1..] == stamp[1..] + "-" + id;
      DashAfterDigits(stamp[1..], id);
    }
  }

  /** A stamp of digits, a dash and a name make a record's file name exactly when there is a
      name. */
  lemma StampedNames(stamp: string, id: string)
    requires stamp != [] && forall k :: 0 <= k < |stamp| ==> IsDigit(stamp[k])
    ensures IsLedgerRecord(stamp + "-" + id + ".json") <==> id != ""
  {
    var name := stamp + "-" + id;
    var base := name + ".json";
    DashAfterDigits(stamp, id);
    assert base[..|base| - 5] == name && base[|base| - 5..] == ".json";
    assert forall k :: 0 <= k < |stamp| ==> name[k] == stamp[k];
  }

  predicate IsStamp(stamp: string) { stamp != [] && forall k :: 0 <= k < |stamp| ==> IsDigit(stamp[k]) }

  predicate IsNamed(base: string, stamp: string, id: string) {
    IsStamp(stamp) && id != "" && base == stamp + "-" + id + ".json"
  }

  /** What counts as a record's file: digits, a dash, a name and the extension, and nothing else. */
  lemma RecordNamesExactly(base: string)
    ensures IsLedgerRecord(base) <==> exists stamp, id :: IsNamed(base, stamp, id)
  {
    if IsLedgerRecord(base) {
      var name := base[..|base| - 5];
      var i := IndexOf(name, '-').value;
      var stamp, id := name[..i], name[i + 1..];
      assert name == stamp + "-" + id && base == name + ".json";
      assert IsNamed(base, stamp, id);
    }
    if stamp, id :| IsNamed(base, stamp, id) { StampedNames(stamp, id); }
  }

  /** A run key is recognised as a record, in any partition, exactly when it names a run. */
  lemma RunKeysAreRecordKeys(dir: string, start: Option<nat>, id: string)
    requires start.Some? ==> start.value <= InvBase
    requires '/' !in id
    ensures IsRecordKey(RunKey(start, id)) <==> id != ""
    ensures IsRecordKey(dir + "/" + RunKey(start, id)) <==> id != ""
  {
    var stamp := Padded(10, if start.Some? then InvBase - start.value else InvBase);
    StampedNames(stamp, id);
    BasenameIn(dir, RunKey(start, id));
  }

  /** Why basenames are ordered and not whole keys: of two runs, one stored flat and a later
      one in a tenant's partition, whole keys would put the older first; basenames do not. */
  lemma WholeKeysWouldHideTenants(a: nat, x: string, b: nat, y: string, user: string)
    requires a < b <= InvBase && '/' !in x && '/' !in y
    ensures var flat, tenant := RunKey(Some(a), x), "user=" + user + "/" + RunKey(Some(b), y);
      && LexLeq(flat, tenant) && !LexLeq(tenant, flat)
      && KeyLeq(tenant, flat) && !KeyLeq(flat, tenant)
  {
    var flat, late := RunKey(Some(a), x), RunKey(Some(b), y);
    BasenameIn("user=" + user, late);
    BasenameIn("", flat);
    if LexLeq(flat, late) { RunKeyOrder(a, x, b, y); }
    LexLeqTotal(flat, late);
    assert IsDigit(flat[0]) && ("user=" + user + "/" + late)[0] == 'u';
  }

  /** One run key stored in two partitions is listed flat first. */
  lemma SameRunKeyTiesByPartition(key: string, user: string)
    requires '/' !in key && key != "" && IsDigit(key[0])
    ensures var tenant := "user=" + user + "/" + key; KeyLeq(key, tenant) && !KeyLeq(tenant, key)
  {
    BasenameIn("user=" + user, key);
    assert ("user=" + user + "/" + key)[0] == 'u';
  }

  /** So the newest keys are newest first, in whatever partitions they sit. */
  lemma NewestAreTimeOrdered(walk: seq<string>, limit: nat, read: Reader)
    requires KeyedByStart(Newest(walk, limit), read)
    ensures TimeOrdered(Newest(walk, limit), read)
  {
    var keys := Newest(walk, limit);
    LexLeqIsTotalOrder();
    NewestAreNewest(walk, limit, "");
    forall i, j | 0 <= i < j < |keys| && IsDated(read, keys[i]) && IsDated(read, keys[j])
      ensures read(keys[j]).value.start.value <= read(keys[i]).value.start.value
    {
      var a, b := read(keys[i]).value, read(keys[j]).value;
      assert KeyLeq(keys[i], keys[j]) && IsKeyOf(keys[i], a) && IsKeyOf(keys[j], b);
      assert LexLeq(Basename(keys[i]), Basename(keys[j]));
      RunKeyOrder(a.start.value, a.id, b.start.value, b.id);
    }
  }

  /** The heartbeat's read, end to end: over any listing of any partitions it returns, in
      order, exactly the dated records of the newest keys that started at or after the
      cutoff, plus whatever undated ones it came across. */
  lemma HeartbeatReadIsComplete(walk: seq<string>, read: Reader, cutoff: int)
    requires KeyedByStart(Newest(walk, HeartbeatCap), read)
    ensures var keys := Newest(walk, HeartbeatCap);
      && Dated(SinceFrom(keys, read, cutoff)) == StartedSince(Readable(keys, read), cutoff)
      && (SinceFrom(keys, read, cutoff) == StartedSince(Readable(keys, read), cutoff) <==>
            AllDated(Readable(Fetched(keys, read, cutoff), read)))
      && |keys| <= 1500
  {
    NewestAreNewest(walk, HeartbeatCap, "");
    NewestAreTimeOrdered(walk, HeartbeatCap, read);
    SinceIsTheFilter(Newest(walk, HeartbeatCap), read, cutoff);
    SinceIsExactlyTheFilter(Newest(walk, HeartbeatCap), read, cutoff);
  }
}
