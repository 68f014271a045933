/**
 cmd/football_pickups.go: one digest per league per day, dedup markers, and a diff
 baseline (the pointer) that may move only once what was found against it is delivered.
 */
module Pickups {
  import opened Wrappers
  import opened PickupDigest
  import AlertMarker

  datatype League = League(id: string, name: string)

  /** What the world does to one league's digest, marker reads and writes by position. */
  datatype Faults = Faults(readOk: nat -> bool, sendOk: bool, writeOk: nat -> bool)

  /** One league on one day: whether its inputs load, how many players are rostered, and
      the ordered items the detectors find against the day's baseline. */
  datatype LeagueDay = LeagueDay(league: League, loads: bool, rostered: nat,
                                 items: seq<Item>, faults: Faults)

  datatype Day = Day(dryRun: bool, leagues: seq<LeagueDay>, markersOk: bool,
                     archiveOk: bool, publishOk: bool, capture: nat)

  datatype Counts = Counts(unsent: nat, sent: nat, tail: nat, sendFailed: nat)

  const Zero := Counts(0, 0, 0, 0)

  function Plus(a: Counts, b: Counts): Counts {
    Counts(a.unsent + b.unsent, a.sent + b.sent, a.tail + b.tail, a.sendFailed + b.sendFailed)
  }

  /** A digest the channel accepted: the items it carried, and its text. */
  datatype Sent = Sent(league: string, carried: seq<Item>, body: string)

  /** An item a run set aside as fitting no digest: its marker key and its line. */
  datatype Named = Named(key: string, line: string)

  /** `marks` is None when no marker store could be built. */
  datatype World = World(marks: Option<map<string, string>>, digests: seq<Sent>,
                         named: seq<Named>)

  function FullKey(league: string, key: string): string { league + "-" + key }

  // ---------------------------------------------------------------- one league

  predicate IsMarked(marks: Option<map<string, string>>, league: string, it: Item) {
    marks.Some? && FullKey(league, it.key) in marks.value
  }

  /** The items with no marker, in order; a failed read reads as no marker. */
  function FreshItems(marks: Option<map<string, string>>, league: string, items: seq<Item>,
                      readOk: nat -> bool): seq<Item>
  {
    if items == [] then []
    else
      var n := |items| - 1;
      FreshItems(marks, league, items[..n], readOk) +
      if readOk(n) && IsMarked(marks, league, items[n]) then [] else [items[n]]
  }

  function MarkAll(marks: Option<map<string, string>>, league: string, items: seq<Item>,
                   writeOk: nat -> bool): Option<map<string, string>>
  {
    if items == [] then marks
    else
      var n := |items| - 1;
      var m := MarkAll(marks, league, items[..n], writeOk);
      if m.None? || !writeOk(n) then m
      else Some(m.value[FullKey(league, items[n].key) := items[n].line])
  }

  /** What one league's digest does to the world, once `shown` of its unsent items fit it. */
  function Deliver(w: World, id: string, unsent: seq<Item>, d: Digest, dryRun: bool, f: Faults): (World, Counts)
    requires unsent != [] && d.shown <= |unsent|
  {
    var n := |unsent|;
    if d.shown == 0 then
      if dryRun then (w, Counts(n, 0, 0, 0))
      else
        (World(MarkAll(w.marks, id, unsent[..1], f.writeOk), w.digests,
               w.named + [Named(FullKey(id, unsent[0].key), unsent[0].line)]),
         Counts(n, 0, n - 1, 0))
    else if dryRun then (w, Counts(n, 0, 0, 0))
    else if !f.sendOk then (w, Counts(n, 0, n, 1))
    else
      (World(MarkAll(w.marks, id, unsent[..d.shown], f.writeOk),
             w.digests + [Sent(id, unsent[..d.shown], d.body)], w.named),
       Counts(n, 1, n - d.shown, 0))
  }

  function Message(unsent: seq<Item>): (d: Digest)
    ensures d.shown <= |unsent|
  {
    Digest(Truncate(Format(unsent).body), Format(unsent).shown)
  }

  function Alert(w: World, day: LeagueDay, dryRun: bool): (World, Counts) {
    var unsent := FreshItems(w.marks, day.league.id, day.items, day.faults.readOk);
    if unsent == [] then (w, Zero)
    else Deliver(w, day.league.id, unsent, Message(unsent), dryRun, day.faults)
  }

  // ---------------------------------------------------------------- one run

  datatype Polled = Polled(w: World, total: Counts, failed: seq<string>)

  function Poll(w: World, leagues: seq<LeagueDay>, dryRun: bool): Polled {
    if leagues == [] then Polled(w, Zero, [])
    else
      var day := leagues[|leagues| - 1];
      var p := Poll(w, leagues[..|leagues| - 1], dryRun);
      if !day.loads then p.(failed := p.failed + [day.league.name])
      else if day.rostered == 0 then p
      else
        var (w', c) := Alert(p.w, day, dryRun);
        Polled(w', Plus(p.total, c), p.failed)
  }

  predicate ShouldAdvance(total: Counts, failed: seq<string>, markersOk: bool) {
    failed == [] && total.sendFailed == 0 && (total.tail == 0 || !markersOk)
  }

  /** What survives between runs: the markers, what was sent and named, and the pointer. */
  datatype State = State(marks: map<string, string>, digests: seq<Sent>, named: seq<Named>,
                         pointer: Option<nat>, archived: seq<nat>)

  function Polled0(s: State, day: Day): Polled {
    Poll(World(if day.markersOk then Some(s.marks) else None, s.digests, s.named),
         day.leagues, day.dryRun)
  }

  /** Whether this run publishes a new pointer. */
  predicate Moves(s: State, day: Day) {
    var p := Polled0(s, day);
    && s.pointer.Some? && !day.dryRun && day.archiveOk && day.publishOk
    && ShouldAdvance(p.total, p.failed, day.markersOk)
  }

  function RunDay(s: State, day: Day): State {
    if s.pointer.None? then
      // The first run writes the baseline and alerts nothing.
      if day.dryRun || !day.archiveOk then s
      else
        var s1 := s.(archived := s.archived + [day.capture]);
        if day.publishOk then s1.(pointer := Some(day.capture)) else s1
    else
      var p := Polled0(s, day);
      State(if p.w.marks.Some? then p.w.marks.value else s.marks, p.w.digests, p.w.named,
            if Moves(s, day) then Some(day.capture) else s.pointer,
            if !day.dryRun && day.archiveOk then s.archived + [day.capture] else s.archived)
  }

  /** Whether the run exits zero: the verdict `pickupRunError` composes. */
  predicate ExitsZero(s: State, day: Day) {
    if s.pointer.None? then day.dryRun || (day.archiveOk && day.publishOk)
    else
      var p := Polled0(s, day);
      && p.failed == [] && p.total.sendFailed == 0
      && (day.dryRun || (day.archiveOk &&
            (day.publishOk || !ShouldAdvance(p.total, p.failed, day.markersOk))))
  }

  // ---------------------------------------------------------------- the imperative run

  /** Everything a run writes besides the markers. */
  class Outside {
    var digests: seq<Sent>
    var named: seq<Named>
    var pointer: Option<nat>
    var archived: seq<nat>

    constructor (s: State)
      ensures digests == s.digests && named == s.named
      ensures pointer == s.pointer && archived == s.archived
    {
      digests, named, pointer, archived := s.digests, s.named, s.pointer, s.archived;
    }
  }

  function Marks(store: AlertMarker.Store?): Option<map<string, string>>
    reads store
  {
    if store == null then None else Some(store.blobs)
  }

  function Seen(store: AlertMarker.Store?, out: Outside): World
    reads store, out
  {
    World(Marks(store), out.digests, out.named)
  }

  method FindUnsent(m: AlertMarker.Marker, league: string, items: seq<Item>, readOk: nat -> bool)
    returns (unsent: seq<Item>)
    ensures unsent == FreshItems(Marks(m.store), league, items, readOk)
  {
    unsent := [];
    var i := 0;
    assert items[..0] == [];
    while i < |items|
      invariant i <= |items|
      invariant unsent == FreshItems(Marks(m.store), league, items[..i], readOk)
    {
      assert items[..i + 1][..i] == items[..i];
      var tok := m.Token(FullKey(league, items[i].key), readOk(i));
      if tok.None? { unsent := unsent + [items[i]]; }
      i := i + 1;
    }
    assert items[..i] == items;
  }

  method MarkShown(m: AlertMarker.Marker, league: string, items: seq<Item>, writeOk: nat -> bool)
    modifies m.store
    ensures Marks(m.store) == MarkAll(old(Marks(m.store)), league, items, writeOk)
  {
    var k := 0;
    assert items[..0] == [];
    while k < |items|
      invariant k <= |items|
      invariant Marks(m.store) == MarkAll(old(Marks(m.store)), league, items[..k], writeOk)
    {
      assert items[..k + 1][..k] == items[..k];
      m.Record(FullKey(league, items[k].key), items[k].line, writeOk(k));
      k := k + 1;
    }
    assert items[..k] == items;
  }

  method DeliverDigest(store: AlertMarker.Store?, out: Outside, m: AlertMarker.Marker, id: string,
                       unsent: seq<Item>, d: Digest, dryRun: bool, f: Faults)
    returns (res: Counts)
    requires store as object? != out && m.store == store && unsent != [] && d.shown <= |unsent|
    modifies store, out`digests, out`named
    ensures (Seen(store, out), res) == old(Deliver(Seen(store, out), id, unsent, d, dryRun, f))
  {
    if d.shown == 0 {
      if dryRun { return Counts(|unsent|, 0, 0, 0); }
      MarkShown(m, id, unsent[..1], f.writeOk);
      out.named := out.named + [Named(FullKey(id, unsent[0].key), unsent[0].line)];
      return Counts(|unsent|, 0, |unsent| - 1, 0);
    }
    if dryRun { return Counts(|unsent|, 0, 0, 0); }
    if !f.sendOk { return Counts(|unsent|, 0, |unsent|, 1); }
    out.digests := out.digests + [Sent(id, unsent[..d.shown], d.body)];
    MarkShown(m, id, unsent[..d.shown], f.writeOk);
    res := Counts(|unsent|, 1, |unsent| - d.shown, 0);
  }

  method AlertPickups(store: AlertMarker.Store?, out: Outside, day: LeagueDay, dryRun: bool)
    returns (res: Counts)
    requires store as object? != out
    modifies store, out`digests, out`named
    ensures (Seen(store, out), res) == old(Alert(Seen(store, out), day, dryRun))
  {
    var m := new AlertMarker.Marker(store);
    var unsent := FindUnsent(m, day.league.id, day.items, day.faults.readOk);
    if unsent == [] { return Zero; }
    var body, shown := FormatPickupDigest(unsent);
    assert Digest(body, shown) == Message(unsent);
    res := DeliverDigest(store, out, m, day.league.id, unsent, Digest(body, shown), dryRun, day.faults);
  }

  method PollPickups(store: AlertMarker.Store?, out: Outside, leagues: seq<LeagueDay>,
                     dryRun: bool)
    returns (total: Counts, failed: seq<string>)
    requires store as object? != out
    modifies store, out`digests, out`named
    ensures Polled(Seen(store, out), total, failed) == old(Poll(Seen(store, out), leagues, dryRun))
  {
    total, failed := Zero, [];
    var i := 0;
    assert leagues[..0] == [];
    while i < |leagues|
      invariant i <= |leagues|
      invariant Polled(Seen(store, out), total, failed) ==
        Poll(old(Seen(store, out)), leagues[..i], dryRun)
    {
      assert leagues[..i + 1][..i] == leagues[..i];
      var day := leagues[i];
      i := i + 1;
      if !day.loads {
        failed := failed + [day.league.name];
        continue;
      }
      if day.rostered == 0 { continue; }
      var r := AlertPickups(store, out, day, dryRun);
      total := Plus(total, r);
    }
    assert leagues[..i] == leagues;
  }

  /** `finishPickupRun` and `persistPickupSnapshot`: archive first, then the pointer. */
  method FinishPickupRun(out: Outside, day: Day, total: Counts, failed: seq<string>)
    returns (persistFailed: bool)
    modifies out`pointer, out`archived
    ensures out.archived ==
      if !day.dryRun && day.archiveOk then old(out.archived) + [day.capture] else old(out.archived)
    ensures out.pointer ==
      if !day.dryRun && day.archiveOk && day.publishOk && ShouldAdvance(total, failed, day.markersOk)
      then Some(day.capture) else old(out.pointer)
    ensures persistFailed ==
      (!day.dryRun &&
       (!day.archiveOk || (!day.publishOk && ShouldAdvance(total, failed, day.markersOk))))
  {
    if day.dryRun { return false; }
    var advance := ShouldAdvance(total, failed, day.markersOk);
    if !day.archiveOk { return true; }
    out.archived := out.archived + [day.capture];
    if !advance { return false; }
    if !day.publishOk { return true; }
    out.pointer := Some(day.capture);
    persistFailed := false;
  }

  /** `writeFirstBaseline`: with no prior capture a run writes one and alerts nothing. */
  method WriteFirstBaseline(out: Outside, day: Day) returns (failed: bool)
    modifies out`pointer, out`archived
    ensures out.archived ==
      if !day.dryRun && day.archiveOk then old(out.archived) + [day.capture] else old(out.archived)
    ensures out.pointer ==
      if !day.dryRun && day.archiveOk && day.publishOk then Some(day.capture) else old(out.pointer)
    ensures failed == (!day.dryRun && !(day.archiveOk && day.publishOk))
  {
    if day.dryRun { return false; }
    if !day.archiveOk { return true; }
    out.archived := out.archived + [day.capture];
    if !day.publishOk { return true; }
    out.pointer := Some(day.capture);
    failed := false;
  }

  /** One run, over the real store. */
  method RunFootballPickups(store: AlertMarker.Store, out: Outside, day: Day)
    returns (exitZero: bool)
    requires store as object != out
    modifies store, out
    ensures State(store.blobs, out.digests, out.named, out.pointer, out.archived) ==
      old(RunDay(State(store.blobs, out.digests, out.named, out.pointer, out.archived), day))
    ensures exitZero ==
      old(ExitsZero(State(store.blobs, out.digests, out.named, out.pointer, out.archived), day))
  {
    if out.pointer.None? {
      var failed := WriteFirstBaseline(out, day);
      return !failed;
    }
    ghost var s := State(store.blobs, out.digests, out.named, out.pointer, out.archived);
    var used: AlertMarker.Store? := if day.markersOk then store else null;
    var total, failed := PollPickups(used, out, day.leagues, day.dryRun);
    assert Polled(Seen(used, out), total, failed) == Polled0(s, day);
    var persistFailed := FinishPickupRun(out, day, total, failed);
    exitZero := failed == [] && total.sendFailed == 0 && !persistFailed;
  }
}
