/**
 What the pickup protocol promises over many runs: the pointer never moves past an
 undelivered item, holding it always ends, and without markers only real retries hold it.
 */
module PickupTheorems {
  import opened Wrappers
  import opened PickupDigest
  import opened Pickups

  /** `k` is the marker key of an item this digest carried. */
  predicate Carries(d: Sent, k: string) {
    exists i :: 0 <= i < |d.carried| && FullKey(d.league, d.carried[i].key) == k
  }

  /** `k` is the marker key of an item set aside whose line really fits no message. */
  predicate NamedAsTooLong(n: Named, k: string) {
    n.key == k && |n.line| + 1 > MaxMessageLen
  }

  predicate Oversize(named: seq<Named>, k: string) {
    exists j :: 0 <= j < |named| && NamedAsTooLong(named[j], k)
  }

  /** Some accepted digest carried the item, or a run named it and no digest can hold it. */
  predicate Handled(digests: seq<Sent>, named: seq<Named>, k: string) {
    Oversize(named, k) || exists j :: 0 <= j < |digests| && Carries(digests[j], k)
  }

  ghost predicate MarksAreHandled(w: World) {
    w.marks.Some? ==> forall k :: k in w.marks.value ==> Handled(w.digests, w.named, k)
  }

  ghost predicate Extends(w: World, w': World) {
    && w.digests <= w'.digests && w.named <= w'.named
    && (w.marks.None? <==> w'.marks.None?)
    && (w.marks.Some? ==> w.marks.value.Keys <= w'.marks.value.Keys)
  }

  // ---------------------------------------------------------------- safety

  lemma HandledGrows(w: World, w': World, k: string)
    requires Extends(w, w') && Handled(w.digests, w.named, k)
    ensures Handled(w'.digests, w'.named, k)
  {
    if Oversize(w.named, k) {
      var j :| 0 <= j < |w.named| && NamedAsTooLong(w.named[j], k);
      assert w'.named[j] == w.named[j];
    } else {
      var j :| 0 <= j < |w.digests| && Carries(w.digests[j], k);
      assert w'.digests[j] == w.digests[j];
    }
  }

  lemma {:induction false} FreshOrMarked(marks: Option<map<string, string>>, league: string,
                                         items: seq<Item>, readOk: nat -> bool, it: Item)
    requires it in items
    ensures it in FreshItems(marks, league, items, readOk) || IsMarked(marks, league, it)
  {
    var n := |items| - 1;
    if it in items[..n] {
      FreshOrMarked(marks, league, items[..n], readOk, it);
    } else {
      assert it == items[n];
    }
  }

  lemma {:induction false} MarkAllKeys(marks: Option<map<string, string>>, league: string,
                                       items: seq<Item>, writeOk: nat -> bool)
    ensures var m := MarkAll(marks, league, items, writeOk);
      && (m.None? <==> marks.None?)
      && (m.Some? ==>
          && marks.value.Keys <= m.value.Keys
          && (forall k :: k in m.value && k !in marks.value ==>
                exists i :: 0 <= i < |items| && FullKey(league, items[i].key) == k)
          && ((forall i :: writeOk(i)) ==>
                forall i :: 0 <= i < |items| ==> FullKey(league, items[i].key) in m.value))
  {
    if items != [] {
      var n := |items| - 1;
      MarkAllKeys(marks, league, items[..n], writeOk);
      var m0 := MarkAll(marks, league, items[..n], writeOk);
      var m := MarkAll(marks, league, items, writeOk);
      if m.Some? {
        forall k | k in m.value && k !in marks.value
          ensures exists i :: 0 <= i < |items| && FullKey(league, items[i].key) == k
        {
          if k in m0.value {
            var i :| 0 <= i < n && FullKey(league, items[..n][i].key) == k;
            assert FullKey(league, items[i].key) == k;
          } else {
            assert FullKey(league, items[n].key) == k;
          }
        }
        if forall i :: writeOk(i) {
          forall i | 0 <= i < |items| ensures FullKey(league, items[i].key) in m.value {
            if i < n { assert items[..n][i] == items[i]; }
          }
        }
      }
    }
  }

  /** One league's alert adds only markers of items it delivered or named. */
  lemma AlertKeepsMarksHandled(w: World, day: LeagueDay, dryRun: bool)
    requires MarksAreHandled(w)
    ensures var (w', c) := Alert(w, day, dryRun); Extends(w, w') && MarksAreHandled(w')
  {
    var (w', c) := Alert(w, day, dryRun);
    var id := day.league.id;
    var unsent := FreshItems(w.marks, id, day.items, day.faults.readOk);
    if unsent != [] && w' != w {
      var shown := Format(unsent).shown;
      var carried := unsent[..if shown == 0 then 1 else shown];
      MarkAllKeys(w.marks, id, carried, day.faults.writeOk);
      assert Extends(w, w');
      if w.marks.Some? {
        forall k | k in w'.marks.value ensures Handled(w'.digests, w'.named, k) {
          if k in w.marks.value {
            HandledGrows(w, w', k);
          } else {
            var i :| 0 <= i < |carried| && FullKey(id, carried[i].key) == k;
            if shown == 0 {
              HeadThatFitsIsShown(unsent);
              assert NamedAsTooLong(w'.named[|w.named|], k);
            } else {
              assert Carries(w'.digests[|w.digests|], k);
            }
          }
        }
      }
    }
  }

  ghost predicate AllHandled(w: World, day: LeagueDay) {
    forall it :: it in day.items ==>
      Handled(w.digests, w.named, FullKey(day.league.id, it.key))
  }

  /** With no tail and no failed send, every unsent item was carried or named. */
  lemma NoTailMeansDelivered(w: World, id: string, unsent: seq<Item>, d: Digest, f: Faults, i: nat)
    requires d.shown <= |unsent| && i < |unsent|
    requires d.shown == 0 ==> |unsent[0].line| + 1 > MaxMessageLen
    requires var c := Deliver(w, id, unsent, d, false, f).1; c.tail == 0 && c.sendFailed == 0
    ensures var w' := Deliver(w, id, unsent, d, false, f).0;
      Handled(w'.digests, w'.named, FullKey(id, unsent[i].key))
  {
    var w' := Deliver(w, id, unsent, d, false, f).0;
    if d.shown == 0 {
      assert NamedAsTooLong(w'.named[|w.named|], FullKey(id, unsent[i].key));
    } else {
      var sent := w'.digests[|w.digests|];
      assert sent.carried[i] == unsent[i];
      assert Carries(sent, FullKey(id, unsent[i].key));
    }
  }

  /** A league that reports no tail and no failed send has had every item handled. */
  lemma NoTailMeansAllHandled(w: World, day: LeagueDay)
    requires MarksAreHandled(w)
    requires Alert(w, day, false).1.tail == 0 && Alert(w, day, false).1.sendFailed == 0
    ensures AllHandled(Alert(w, day, false).0, day)
  {
    AlertKeepsMarksHandled(w, day, false);
    var w' := Alert(w, day, false).0;
    var id := day.league.id;
    var unsent := FreshItems(w.marks, id, day.items, day.faults.readOk);
    forall it | it in day.items ensures Handled(w'.digests, w'.named, FullKey(id, it.key)) {
      FreshOrMarked(w.marks, id, day.items, day.faults.readOk, it);
      if it in unsent {
        var i :| 0 <= i < |unsent| && unsent[i] == it;
        HeadThatFitsIsShown(unsent);
        NoTailMeansDelivered(w, id, unsent, Message(unsent), day.faults, i);
      } else {
        HandledGrows(w, w', FullKey(id, it.key));
      }
    }
  }

  lemma {:induction false} PollSafety(w: World, leagues: seq<LeagueDay>, dryRun: bool)
    requires MarksAreHandled(w)
    ensures var p := Poll(w, leagues, dryRun);
      && Extends(w, p.w) && MarksAreHandled(p.w)
      && (p.failed == [] ==> forall l :: l in leagues ==> l.loads)
      && (!dryRun && p.total.tail == 0 && p.total.sendFailed == 0 && p.failed == [] ==>
            forall l :: l in leagues && l.rostered > 0 ==> AllHandled(p.w, l))
  {
    if leagues != [] {
      var n := |leagues| - 1;
      var day := leagues[n];
      PollSafety(w, leagues[..n], dryRun);
      var p0, p := Poll(w, leagues[..n], dryRun), Poll(w, leagues, dryRun);
      if day.loads && day.rostered > 0 {
        AlertKeepsMarksHandled(p0.w, day, dryRun);
      }
      forall l | l in leagues && l !in leagues[..n] ensures l == day { }
      if !dryRun && p.total.tail == 0 && p.total.sendFailed == 0 && p.failed == [] {
        forall l | l in leagues && l.rostered > 0 ensures AllHandled(p.w, l) {
          if l in leagues[..n] {
            forall it | it in l.items
              ensures Handled(p.w.digests, p.w.named, FullKey(l.league.id, it.key))
            {
              HandledGrows(p0.w, p.w, FullKey(l.league.id, it.key));
            }
          } else {
            NoTailMeansAllHandled(p0.w, day);
          }
        }
      }
    }
  }

  // ---------------------------------------------------------------- what a marker says

  /** The digest carried an item under this key with this line. */
  predicate CarriesLine(d: Sent, k: string, line: string) {
    exists i :: 0 <= i < |d.carried| && FullKey(d.league, d.carried[i].key) == k && d.carried[i].line == line
  }

  predicate WasTold(w: World, k: string, line: string) {
    Named(k, line) in w.named || exists j :: 0 <= j < |w.digests| && CarriesLine(w.digests[j], k, line)
  }

  ghost predicate MarksTell(w: World) {
    w.marks.Some? ==> forall k :: k in w.marks.value ==> WasTold(w, k, w.marks.value[k])
  }

  lemma ToldStays(w: World, w': World, k: string, line: string)
    requires w.digests <= w'.digests && w.named <= w'.named && WasTold(w, k, line)
    ensures WasTold(w', k, line)
  {
    if Named(k, line) !in w.named {
      var j :| 0 <= j < |w.digests| && CarriesLine(w.digests[j], k, line);
      assert w'.digests[j] == w.digests[j];
    }
  }

  lemma {:induction false} MarkAllLines(marks: Option<map<string, string>>, league: string,
                                        items: seq<Item>, writeOk: nat -> bool)
    ensures var m := MarkAll(marks, league, items, writeOk);
      && (m.None? <==> marks.None?)
      && (m.Some? ==> forall k :: k in m.value ==>
            (k in marks.value && m.value[k] == marks.value[k]) || MarksOne(items, league, k, m.value[k]))
  {
    if items != [] {
      var n := |items| - 1;
      MarkAllLines(marks, league, items[..n], writeOk);
      var m0, m := MarkAll(marks, league, items[..n], writeOk), MarkAll(marks, league, items, writeOk);
      if m.Some? {
        forall k | k in m.value
          ensures (k in marks.value && m.value[k] == marks.value[k]) || MarksOne(items, league, k, m.value[k])
        {
          if k in m0.value && m.value[k] == m0.value[k] {
            if MarksOne(items[..n], league, k, m.value[k]) {
              var i :| 0 <= i < n && FullKey(league, items[..n][i].key) == k && items[..n][i].line == m.value[k];
              assert FullKey(league, items[i].key) == k && items[i].line == m.value[k];
            }
          } else {
            assert FullKey(league, items[n].key) == k && items[n].line == m.value[k];
          }
        }
      }
    }
  }

  predicate MarksOne(items: seq<Item>, league: string, k: string, line: string) {
    exists i :: 0 <= i < |items| && FullKey(league, items[i].key) == k && items[i].line == line
  }

  lemma AlertTells(w: World, day: LeagueDay, dryRun: bool)
    requires MarksTell(w)
    ensures var w' := Alert(w, day, dryRun).0;
      MarksTell(w') && w.digests <= w'.digests && w.named <= w'.named
  {
    var w' := Alert(w, day, dryRun).0;
    var id := day.league.id;
    var unsent := FreshItems(w.marks, id, day.items, day.faults.readOk);
    if unsent != [] && w' != w {
      var shown := Message(unsent).shown;
      var carried := unsent[..if shown == 0 then 1 else shown];
      MarkAllLines(w.marks, id, carried, day.faults.writeOk);
      if w.marks.Some? {
        forall k | k in w'.marks.value ensures WasTold(w', k, w'.marks.value[k]) {
          if k in w.marks.value && w'.marks.value[k] == w.marks.value[k] {
            ToldStays(w, w', k, w.marks.value[k]);
          } else if shown == 0 {
            assert w'.named[|w.named|] == Named(k, w'.marks.value[k]);
          } else {
            assert CarriesLine(w'.digests[|w.digests|], k, w'.marks.value[k]);
          }
        }
      }
    }
  }

  lemma {:induction false} PollTells(w: World, leagues: seq<LeagueDay>, dryRun: bool)
    requires MarksTell(w)
    ensures var p := Poll(w, leagues, dryRun);
      MarksTell(p.w) && w.digests <= p.w.digests && w.named <= p.w.named
  {
    if leagues != [] {
      var n := |leagues| - 1;
      PollTells(w, leagues[..n], dryRun);
      AlertTells(Poll(w, leagues[..n], dryRun).w, leagues[n], dryRun);
    }
  }

  /** Over every run a marker holds the very line that some accepted digest carried under its
      key, or that a run set aside. */
  lemma {:induction false} MarkersHoldTheLine(days: seq<Day>)
    ensures var s := RunAll(days); MarksTell(World(Some(s.marks), s.digests, s.named))
  {
    if days != [] {
      var n := |days| - 1;
      MarkersHoldTheLine(days[..n]);
      var s, day := RunAll(days[..n]), days[n];
      if s.pointer.Some? {
        var w := World(if day.markersOk then Some(s.marks) else None, s.digests, s.named);
        PollTells(w, day.leagues, day.dryRun);
        var w' := Poll(w, day.leagues, day.dryRun).w;
        PollKeepsStore(w, day.leagues, day.dryRun);
        if !day.markersOk {
          forall k | k in s.marks ensures WasTold(World(Some(s.marks), w'.digests, w'.named), k, s.marks[k]) {
            ToldStays(World(Some(s.marks), s.digests, s.named), World(Some(s.marks), w'.digests, w'.named),
                      k, s.marks[k]);
          }
        }
      }
    }
  }

  lemma {:induction false} PollKeepsStore(w: World, leagues: seq<LeagueDay>, dryRun: bool)
    ensures Poll(w, leagues, dryRun).w.marks.None? <==> w.marks.None?
  {
    if leagues != [] {
      var n := |leagues| - 1;
      PollKeepsStore(w, leagues[..n], dryRun);
      AlertKeepsStore(Poll(w, leagues[..n], dryRun).w, leagues[n], dryRun);
    }
  }

  lemma AlertKeepsStore(w: World, l: LeagueDay, dryRun: bool)
    ensures Alert(w, l, dryRun).0.marks.None? <==> w.marks.None?
  {
    var unsent := FreshItems(w.marks, l.league.id, l.items, l.faults.readOk);
    if unsent != [] {
      var shown := Message(unsent).shown;
      MarkAllKeys(w.marks, l.league.id, unsent[..if shown == 0 then 1 else shown], l.faults.writeOk);
    }
  }

  // ---------------------------------------------------------------- marker keys

  /** Two leagues can ever share a marker key exactly when one id, with its dash, begins the
      other; ids without a dash never do. */
  lemma KeysCollideExactly(a: string, b: string)
    requires a != b
    ensures (exists x, y :: FullKey(a, x) == FullKey(b, y)) <==> a + "-" <= b || b + "-" <= a
    ensures '-' !in a && '-' !in b ==> forall x, y :: FullKey(a, x) != FullKey(b, y)
  {
    forall x, y | FullKey(a, x) == FullKey(b, y) ensures a + "-" <= b || b + "-" <= a {
      SharedKey(a, x, b, y);
    }
    if a + "-" <= b {
      var x := b[|a| + 1..] + "-";
      assert FullKey(a, x) == FullKey(b, "");
    } else if b + "-" <= a {
      var y := a[|b| + 1..] + "-";
      assert FullKey(a, "") == FullKey(b, y);
    }
    if a + "-" <= b { assert b[|a|] == '-'; }
    if b + "-" <= a { assert a[|b|] == '-'; }
  }

  lemma SharedKey(a: string, x: string, b: string, y: string)
    requires a != b && FullKey(a, x) == FullKey(b, y)
    ensures a + "-" <= b || b + "-" <= a
  {
    var k := FullKey(a, x);
    assert k[..|a|] == a && k[..|b|] == b && k[|a|] == '-' && k[|b|] == '-';
    if |a| < |b| { assert b[..|a|] == a && b[|a|] == '-' && b[..|a| + 1] == a + "-"; }
    else if |b| < |a| { assert a[..|b|] == b && a[|b|] == '-' && a[..|b| + 1] == b + "-"; }
  }

  /** Within a league a marker key names one item key. */
  lemma KeysWithinALeague(league: string, x: string, y: string)
    requires FullKey(league, x) == FullKey(league, y)
    ensures x == y
  {
    assert FullKey(league, x)[|league| + 1..] == x && FullKey(league, y)[|league| + 1..] == y;
  }

  const Start := State(map[], [], [], None, [])

  function RunAll(days: seq<Day>): State {
    if days == [] then Start else RunDay(RunAll(days[..|days| - 1]), days[|days| - 1])
  }

  lemma {:induction false} MarksStayHandled(days: seq<Day>)
    ensures var s := RunAll(days);
      MarksAreHandled(World(Some(s.marks), s.digests, s.named))
  {
    if days != [] {
      var n := |days| - 1;
      MarksStayHandled(days[..n]);
      var s, day := RunAll(days[..n]), days[n];
      if s.pointer.Some? {
        var w := World(if day.markersOk then Some(s.marks) else None, s.digests, s.named);
        PollSafety(w, day.leagues, day.dryRun);
        var w' := Poll(w, day.leagues, day.dryRun).w;
        if !day.markersOk {
          var a, b := World(Some(s.marks), s.digests, s.named),
                      World(Some(s.marks), w'.digests, w'.named);
          forall k | k in s.marks ensures Handled(w'.digests, w'.named, k) {
            HandledGrows(a, b, k);
          }
        }
      }
    }
  }

  /** No loss. After any history of runs, with loads, sends, marker reads and writes and
      archive writes failing in any pattern: if a run with a marker store moves the
      pointer, no league failed to load in it, and every item it detected in a drafted
      league was carried by an accepted digest, or named and too long for any. */
  lemma PointerNeverPassesAnUndeliveredItem(days: seq<Day>, day: Day)
    requires day.markersOk && RunAll(days).pointer.Some?
    requires Moves(RunAll(days), day) || RunDay(RunAll(days), day).pointer != RunAll(days).pointer
    ensures var after := RunDay(RunAll(days), day);
      forall l :: l in day.leagues ==>
        && l.loads
        && (l.rostered > 0 ==> forall it :: it in l.items ==>
              Handled(after.digests, after.named, FullKey(l.league.id, it.key)))
  {
    var s := RunAll(days);
    MarksStayHandled(days);
    var w := World(Some(s.marks), s.digests, s.named);
    PollSafety(w, day.leagues, day.dryRun);
    var p := Poll(w, day.leagues, day.dryRun);
    forall l | l in day.leagues && l.rostered > 0
      ensures forall it :: it in l.items ==>
        Handled(p.w.digests, p.w.named, FullKey(l.league.id, it.key))
    {
      assert AllHandled(p.w, l);
    }
  }

  ghost predicate IntSized(days: seq<Day>) {
    forall i, j :: 0 <= i < |days| && 0 <= j < |days[i].leagues| ==>
      |days[i].leagues[j].items| < Text.Pow10(19)
  }

  lemma {:induction false} FreshNoLonger(marks: Option<map<string, string>>, league: string,
                                         items: seq<Item>, readOk: nat -> bool)
    ensures |FreshItems(marks, league, items, readOk)| <= |items|
  {
    if items != [] { FreshNoLonger(marks, league, items[..|items| - 1], readOk); }
  }

  ghost predicate WholeLines(digests: seq<Sent>) {
    forall i :: 0 <= i < |digests| ==> Body(digests[i].carried) <= digests[i].body
  }

  lemma MessageIsWhole(unsent: seq<Item>)
    requires |unsent| < Text.Pow10(19)
    ensures Body(unsent[..Message(unsent).shown]) <= Message(unsent).body
  {
    DigestCarriesExactlyItsPrefix(unsent);
  }

  lemma DeliverWholeLines(w: World, id: string, unsent: seq<Item>, d: Digest, dryRun: bool, f: Faults)
    requires WholeLines(w.digests) && unsent != [] && d.shown <= |unsent|
    requires Body(unsent[..d.shown]) <= d.body
    ensures WholeLines(Deliver(w, id, unsent, d, dryRun, f).0.digests)
  {
  }

  lemma AlertWholeLines(w: World, day: LeagueDay, dryRun: bool)
    requires WholeLines(w.digests) && |day.items| < Text.Pow10(19)
    ensures WholeLines(Alert(w, day, dryRun).0.digests)
  {
    var unsent := FreshItems(w.marks, day.league.id, day.items, day.faults.readOk);
    FreshNoLonger(w.marks, day.league.id, day.items, day.faults.readOk);
    if unsent != [] {
      MessageIsWhole(unsent);
      DeliverWholeLines(w, day.league.id, unsent, Message(unsent), dryRun, day.faults);
    }
  }

  lemma {:induction false} PollWholeLines(w: World, leagues: seq<LeagueDay>, dryRun: bool)
    requires WholeLines(w.digests)
    requires forall j :: 0 <= j < |leagues| ==> |leagues[j].items| < Text.Pow10(19)
    ensures WholeLines(Poll(w, leagues, dryRun).w.digests)
  {
    if leagues != [] {
      var n := |leagues| - 1;
      PollWholeLines(w, leagues[..n], dryRun);
      AlertWholeLines(Poll(w, leagues[..n], dryRun).w, leagues[n], dryRun);
    }
  }

  lemma DayWholeLines(s: State, day: Day)
    requires WholeLines(s.digests)
    requires forall j :: 0 <= j < |day.leagues| ==> |day.leagues[j].items| < Text.Pow10(19)
    ensures WholeLines(RunDay(s, day).digests)
  {
    if s.pointer.Some? {
      PollWholeLines(World(if day.markersOk then Some(s.marks) else None, s.digests, s.named),
                     day.leagues, day.dryRun);
    }
  }

  /** Every digest ever sent contains, uncut, the line of every item it is said to carry. */
  lemma {:induction false} SentDigestsCarryWholeLines(days: seq<Day>)
    requires IntSized(days)
    ensures WholeLines(RunAll(days).digests)
  {
    if days != [] {
      var n := |days| - 1;
      assert forall i :: 0 <= i < n ==> days[..n][i] == days[i];
      SentDigestsCarryWholeLines(days[..n]);
      DayWholeLines(RunAll(days[..n]), days[n]);
    }
  }

  // ---------------------------------------------------------------- dry runs

  lemma {:induction false} DryPoll(w: World, leagues: seq<LeagueDay>)
    ensures var p := Poll(w, leagues, true);
      p.w == w && p.total.sent == p.total.tail == p.total.sendFailed == 0
  {
    if leagues != [] { DryPoll(w, leagues[..|leagues| - 1]); }
  }

  /** A dry run, the first or any later one, sends nothing, marks nothing, names nothing,
      archives nothing and leaves the pointer. */
  lemma DryRunChangesNothing(s: State, day: Day)
    requires day.dryRun
    ensures RunDay(s, day) == s
  {
    DryPoll(World(if day.markersOk then Some(s.marks) else None, s.digests, s.named), day.leagues);
  }

  // ---------------------------------------------------------------- what a run reports

  /** How many items these digests carried. */
  function Carried(digests: seq<Sent>): nat {
    if digests == [] then 0
    else Carried(digests[..|digests| - 1]) + |digests[|digests| - 1].carried|
  }

  lemma {:induction false} CarriedAppend(a: seq<Sent>, b: seq<Sent>)
    ensures Carried(a + b) == Carried(a) + Carried(b)
  {
    if b == [] {
      assert a + b == a;
    } else {
      assert (a + b)[..|a + b| - 1] == a + b[..|b| - 1];
      CarriedAppend(a, b[..|b| - 1]);
    }
  }

  /** The counters against the world: every unsent item is in a digest just accepted, or just
      set aside, or counted as owed; and every accepted digest is counted. */
  ghost predicate Balances(w: World, w': World, c: Counts) {
    && w.digests <= w'.digests && w.named <= w'.named
    && c.sent == |w'.digests| - |w.digests|
    && c.unsent == Carried(w'.digests) - Carried(w.digests) + |w'.named| - |w.named| + c.tail
  }

  /** The league has a message to send and the channel refuses it. */
  predicate Refused(marks: Option<map<string, string>>, l: LeagueDay) {
    var unsent := FreshItems(marks, l.league.id, l.items, l.faults.readOk);
    unsent != [] && |unsent[0].line| + 1 <= MaxMessageLen && !l.faults.sendOk
  }

  lemma AlertBalances(w: World, l: LeagueDay)
    ensures var (w', c) := Alert(w, l, false);
      && Balances(w, w', c)
      && c.unsent == |FreshItems(w.marks, l.league.id, l.items, l.faults.readOk)|
      && c.sendFailed == if Refused(w.marks, l) then 1 else 0
  {
    var unsent := FreshItems(w.marks, l.league.id, l.items, l.faults.readOk);
    HeadThatFitsIsShown(unsent);
    if unsent != [] {
      var d := Sent(l.league.id, unsent[..Message(unsent).shown], Message(unsent).body);
      CarriedAppend(w.digests, [d]);
      assert [d][..0] == [];
    }
  }

  /** The league is asked about, and refused, when its turn comes. */
  predicate RefusedAt(w: World, leagues: seq<LeagueDay>, i: nat)
    requires i < |leagues|
  {
    leagues[i].loads && leagues[i].rostered > 0 && Refused(Poll(w, leagues[..i], false).w.marks, leagues[i])
  }

  predicate NoneRefused(w: World, leagues: seq<LeagueDay>) {
    forall i :: 0 <= i < |leagues| ==> !RefusedAt(w, leagues, i)
  }

  predicate AllLoad(leagues: seq<LeagueDay>) { forall i :: 0 <= i < |leagues| ==> leagues[i].loads }

  lemma NoneRefusedStep(w: World, leagues: seq<LeagueDay>)
    requires leagues != []
    ensures var n := |leagues| - 1;
      NoneRefused(w, leagues) <==> NoneRefused(w, leagues[..n]) && !RefusedAt(w, leagues, n)
  {
    var n := |leagues| - 1;
    forall i | 0 <= i < n ensures RefusedAt(w, leagues[..n], i) <==> RefusedAt(w, leagues, i) {
      assert leagues[..n][..i] == leagues[..i];
    }
  }

  lemma {:induction false} PollReports(w: World, leagues: seq<LeagueDay>, dryRun: bool)
    ensures Poll(w, leagues, dryRun).failed == [] <==> AllLoad(leagues)
  {
    if leagues != [] {
      var n := |leagues| - 1;
      PollReports(w, leagues[..n], dryRun);
      assert forall i :: 0 <= i < n ==> leagues[..n][i] == leagues[i];
    }
  }

  /** Over the whole poll the counters balance, and a send failed exactly if some league was
      refused when its turn came. */
  lemma {:induction false} PollBalances(w: World, leagues: seq<LeagueDay>)
    ensures var p := Poll(w, leagues, false);
      && Balances(w, p.w, p.total)
      && (p.total.sendFailed == 0 <==> NoneRefused(w, leagues))
  {
    if leagues != [] {
      var n := |leagues| - 1;
      PollBalances(w, leagues[..n]);
      NoneRefusedStep(w, leagues);
      AlertBalances(Poll(w, leagues[..n], false).w, leagues[n]);
    }
  }

  function Before(s: State, day: Day): World {
    World(if day.markersOk then Some(s.marks) else None, s.digests, s.named)
  }

  /** When a run exits zero: every league loaded, none was refused, and unless it is dry the
      capture was archived and the pointer stored, or held because items are still owed. The
      first run has only its baseline to store. */
  lemma ExitsZeroExactly(s: State, day: Day)
    ensures var owed := Polled0(s, day).total.tail;
      ExitsZero(s, day) <==>
        if s.pointer.None? then day.dryRun || (day.archiveOk && day.publishOk)
        else
          && AllLoad(day.leagues)
          && (day.dryRun ||
               (NoneRefused(Before(s, day), day.leagues) && day.archiveOk &&
                (day.publishOk || (owed > 0 && day.markersOk))))
  {
    var w := Before(s, day);
    PollReports(w, day.leagues, day.dryRun);
    if day.dryRun { DryPoll(w, day.leagues); } else { PollBalances(w, day.leagues); }
  }

  /** What a run that is not dry stores. Its capture is archived whenever that works, moved or
      not. The pointer becomes the capture exactly when that and its own write work and nothing
      is owed to anyone: on the first run at once, later when every league loaded, none was
      refused, and no item is left over or there is no marker store to tell. Markers stay. */
  lemma RunStoresExactly(s: State, day: Day)
    requires !day.dryRun
    ensures var after := RunDay(s, day);
      var settled := s.pointer.None? ||
        (AllLoad(day.leagues) && NoneRefused(Before(s, day), day.leagues)
         && (Polled0(s, day).total.tail == 0 || !day.markersOk));
      && after.archived == (if day.archiveOk then s.archived + [day.capture] else s.archived)
      && after.pointer ==
           (if settled && day.archiveOk && day.publishOk then Some(day.capture) else s.pointer)
      && s.marks.Keys <= after.marks.Keys
      && (s.pointer.None? || !day.markersOk ==> after.marks == s.marks)
  {
    var w := Before(s, day);
    PollReports(w, day.leagues, false);
    PollBalances(w, day.leagues);
    PollKeepsMarks(w, day.leagues);
  }

  lemma {:induction false} PollKeepsMarks(w: World, leagues: seq<LeagueDay>)
    ensures var p := Poll(w, leagues, false);
      && (w.marks.None? <==> p.w.marks.None?)
      && (w.marks.Some? ==> w.marks.value.Keys <= p.w.marks.value.Keys)
  {
    if leagues != [] {
      var n := |leagues| - 1;
      PollKeepsMarks(w, leagues[..n]);
      AlertKeepsMarks(Poll(w, leagues[..n], false).w, leagues[n]);
    }
  }

  lemma AlertKeepsMarks(w: World, l: LeagueDay)
    ensures var w' := Alert(w, l, false).0;
      && (w.marks.None? <==> w'.marks.None?)
      && (w.marks.Some? ==> w.marks.value.Keys <= w'.marks.value.Keys)
  {
    var unsent := FreshItems(w.marks, l.league.id, l.items, l.faults.readOk);
    if unsent != [] {
      var shown := Message(unsent).shown;
      MarkAllKeys(w.marks, l.league.id, unsent[..if shown == 0 then 1 else shown], l.faults.writeOk);
    }
  }

  /** The diff baseline is always a capture that was archived. */
  lemma {:induction false} PointerIsArchived(days: seq<Day>)
    ensures var s := RunAll(days); s.pointer.Some? ==> s.pointer.value in s.archived
  {
    if days != [] {
      var init, day := RunAll(days[..|days| - 1]), days[|days| - 1];
      PointerIsArchived(days[..|days| - 1]);
      if day.dryRun { DryRunChangesNothing(init, day); } else { RunStoresExactly(init, day); }
    }
  }

  // ---------------------------------------------------------------- progress

  /** The items still without a marker. */
  function Unmarked(marks: map<string, string>, league: string, items: seq<Item>): seq<Item> {
    if items == [] then []
    else
      var n := |items| - 1;
      Unmarked(marks, league, items[..n]) +
      if FullKey(league, items[n].key) in marks then [] else [items[n]]
  }

  /** How much a league still has to deliver; an undrafted league has nothing. */
  function Backlog(marks: map<string, string>, l: LeagueDay): nat {
    if l.rostered == 0 then 0 else |Unmarked(marks, l.league.id, l.items)|
  }

  ghost predicate HealthyLeague(l: LeagueDay) {
    l.loads && l.faults.sendOk &&
    (forall i :: l.faults.readOk(i)) && (forall i :: l.faults.writeOk(i))
  }

  ghost predicate Healthy(day: Day) {
    && !day.dryRun && day.markersOk && day.archiveOk && day.publishOk
    && forall i :: 0 <= i < |day.leagues| ==> HealthyLeague(day.leagues[i])
  }

  lemma {:induction false} FreshIsUnmarked(marks: map<string, string>, league: string,
                                           items: seq<Item>, readOk: nat -> bool)
    requires forall i :: readOk(i)
    ensures FreshItems(Some(marks), league, items, readOk) == Unmarked(marks, league, items)
    ensures forall it :: it in Unmarked(marks, league, items) ==>
      it in items && FullKey(league, it.key) !in marks
  {
    if items != [] { FreshIsUnmarked(marks, league, items[..|items| - 1], readOk); }
  }

  lemma {:induction false} MoreMarksFewerUnmarked(a: map<string, string>, b: map<string, string>,
                                                  league: string, items: seq<Item>)
    requires a.Keys <= b.Keys
    ensures |Unmarked(b, league, items)| <= |Unmarked(a, league, items)|
    ensures (exists it :: it in Unmarked(a, league, items) && FullKey(league, it.key) in b) ==>
      |Unmarked(b, league, items)| < |Unmarked(a, league, items)|
  {
    if items != [] {
      var n := |items| - 1;
      MoreMarksFewerUnmarked(a, b, league, items[..n]);
      assert forall it :: it in Unmarked(a, league, items) ==>
        it in Unmarked(a, league, items[..n]) || it == items[n];
    }
  }

  function LessOne(n: nat): nat { if n == 0 then 0 else n - 1 }

  lemma DeliverProgress(w: World, id: string, unsent: seq<Item>, d: Digest, f: Faults)
    requires w.marks.Some? && unsent != [] && d.shown <= |unsent|
    requires f.sendOk && forall i :: f.writeOk(i)
    ensures var (w', c) := Deliver(w, id, unsent, d, false, f);
      && w'.marks.Some? && w.marks.value.Keys <= w'.marks.value.Keys
      && FullKey(id, unsent[0].key) in w'.marks.value
      && c.sendFailed == 0 && (|unsent| == 1 ==> c.tail == 0)
  {
    var carried := unsent[..if d.shown == 0 then 1 else d.shown];
    MarkAllKeys(w.marks, id, carried, f.writeOk);
    assert carried[0] == unsent[0];
  }

  /** A healthy league marks at least one item, and is done once it is down to one. */
  lemma AlertProgress(w: World, l: LeagueDay)
    requires w.marks.Some? && HealthyLeague(l) && l.rostered > 0
    ensures var (w', c) := Alert(w, l, false);
      && w'.marks.Some? && w.marks.value.Keys <= w'.marks.value.Keys
      && c.sendFailed == 0
      && Backlog(w'.marks.value, l) <= LessOne(Backlog(w.marks.value, l))
      && (Backlog(w.marks.value, l) <= 1 ==> c.tail == 0)
  {
    var id := l.league.id;
    FreshIsUnmarked(w.marks.value, id, l.items, l.faults.readOk);
    var unsent := Unmarked(w.marks.value, id, l.items);
    if unsent != [] {
      DeliverProgress(w, id, unsent, Message(unsent), l.faults);
      var w' := Alert(w, l, false).0;
      assert unsent[0] in unsent;
      MoreMarksFewerUnmarked(w.marks.value, w'.marks.value, id, l.items);
    }
  }

  /** Backlogs after one more league: that league's is one less, the others' no more. */
  lemma BacklogAfterOneMore(a: map<string, string>, b: map<string, string>, c: map<string, string>,
                            leagues: seq<LeagueDay>)
    requires leagues != [] && a.Keys <= b.Keys <= c.Keys
    requires var n := |leagues| - 1;
      && (forall i :: 0 <= i < n ==> Backlog(b, leagues[i]) <= LessOne(Backlog(a, leagues[i])))
      && Backlog(c, leagues[n]) <= LessOne(Backlog(b, leagues[n]))
    ensures forall i :: 0 <= i < |leagues| ==> Backlog(c, leagues[i]) <= LessOne(Backlog(a, leagues[i]))
    ensures forall i :: 0 <= i < |leagues| ==> Backlog(b, leagues[i]) <= Backlog(a, leagues[i])
  {
    forall i | 0 <= i < |leagues|
      ensures Backlog(c, leagues[i]) <= LessOne(Backlog(a, leagues[i]))
      ensures Backlog(b, leagues[i]) <= Backlog(a, leagues[i])
    {
      var l := leagues[i];
      MoreMarksFewerUnmarked(a, b, l.league.id, l.items);
      MoreMarksFewerUnmarked(b, c, l.league.id, l.items);
    }
  }

  lemma {:induction false} PollProgress(w: World, leagues: seq<LeagueDay>)
    requires w.marks.Some?
    requires forall i :: 0 <= i < |leagues| ==> HealthyLeague(leagues[i])
    ensures var p := Poll(w, leagues, false);
      && p.w.marks.Some? && w.marks.value.Keys <= p.w.marks.value.Keys
      && p.failed == [] && p.total.sendFailed == 0
      && (forall i :: 0 <= i < |leagues| ==>
            Backlog(p.w.marks.value, leagues[i]) <= LessOne(Backlog(w.marks.value, leagues[i])))
      && ((forall i :: 0 <= i < |leagues| ==> Backlog(w.marks.value, leagues[i]) <= 1) ==>
            p.total.tail == 0)
  {
    if leagues != [] {
      var n := |leagues| - 1;
      assert forall i :: 0 <= i < n ==> leagues[..n][i] == leagues[i];
      PollProgress(w, leagues[..n]);
      var p0, p := Poll(w, leagues[..n], false), Poll(w, leagues, false);
      assert HealthyLeague(leagues[n]);
      if leagues[n].rostered > 0 { AlertProgress(p0.w, leagues[n]); }
      BacklogAfterOneMore(w.marks.value, p0.w.marks.value, p.w.marks.value, leagues);
      assert Backlog(p0.w.marks.value, leagues[n]) <= Backlog(w.marks.value, leagues[n]);
    }
  }

  function Repeat(s: State, day: Day, k: nat): State
    decreases k
  {
    if k == 0 then s else Repeat(RunDay(s, day), day, k - 1)
  }

  /** The k-th repetition stores the new pointer, and none before it does. */
  ghost predicate MovesAt(s: State, day: Day, k: nat) {
    && Moves(Repeat(s, day, k), day) && RunDay(Repeat(s, day, k), day).pointer == Some(day.capture)
    && forall j :: 0 <= j <= k ==> Repeat(s, day, j).pointer == s.pointer
  }

  /** Holding the pointer ends. With the baseline and the detected items fixed and nothing
      failing, every league's backlog drops by at least one each run, so the pointer moves
      within as many runs as the largest backlog, or one when there is none. */
  lemma {:induction false} HoldingEnds(s: State, day: Day, most: nat)
    requires s.pointer.Some? && Healthy(day) && most >= 1
    requires forall i :: 0 <= i < |day.leagues| ==> Backlog(s.marks, day.leagues[i]) <= most
    ensures forall i :: 0 <= i < |day.leagues| ==>
      Backlog(RunDay(s, day).marks, day.leagues[i]) <= LessOne(Backlog(s.marks, day.leagues[i]))
    ensures exists k :: 0 <= k < most && MovesAt(s, day, k)
    decreases most
  {
    PollProgress(World(Some(s.marks), s.digests, s.named), day.leagues);
    if Moves(s, day) {
      assert MovesAt(s, day, 0);
    } else {
      var s1 := RunDay(s, day);
      HoldingEnds(s1, day, most - 1);
      var k :| 0 <= k < most - 1 && MovesAt(s1, day, k);
      forall j | 0 <= j <= k + 1 ensures Repeat(s, day, j).pointer == s.pointer {
        if j > 0 { assert Repeat(s, day, j) == Repeat(s1, day, j - 1); }
      }
      assert MovesAt(s, day, k + 1);
    }
  }

  // ---------------------------------------------------------------- without a marker store

  /** Whether a league would put a message on the channel when nothing is deduplicated. */
  predicate Speaks(l: LeagueDay) {
    l.items != [] && |l.items[0].line| + 1 <= MaxMessageLen
  }

  lemma {:induction false} WithoutMarksAllFresh(league: string, items: seq<Item>, readOk: nat -> bool)
    ensures FreshItems(None, league, items, readOk) == items
  {
    if items != [] {
      var n := |items| - 1;
      WithoutMarksAllFresh(league, items[..n], readOk);
      assert !IsMarked(None, league, items[n]);
      assert FreshItems(None, league, items, readOk) == items[..n] + [items[n]];
    }
  }

  ghost predicate Delivers(l: LeagueDay) {
    l.loads && (l.rostered > 0 && Speaks(l) ==> l.faults.sendOk)
  }

  lemma AlertWithoutMarks(w: World, l: LeagueDay)
    requires w.marks.None?
    ensures var (w', c) := Alert(w, l, false);
      w'.marks.None? && (c.sendFailed == 0 <==> (Speaks(l) ==> l.faults.sendOk))
  {
    WithoutMarksAllFresh(l.league.id, l.items, l.faults.readOk);
    HeadThatFitsIsShown(l.items);
    MarkAllKeys(None, l.league.id, l.items[..Message(l.items).shown], l.faults.writeOk);
    if l.items != [] { MarkAllKeys(None, l.league.id, l.items[..1], l.faults.writeOk); }
  }

  ghost predicate AllDeliver(leagues: seq<LeagueDay>) {
    forall i :: 0 <= i < |leagues| ==> Delivers(leagues[i])
  }

  lemma AllDeliverStep(leagues: seq<LeagueDay>)
    requires leagues != []
    ensures AllDeliver(leagues) <==> AllDeliver(leagues[..|leagues| - 1]) && Delivers(leagues[|leagues| - 1])
  {
    var init := leagues[..|leagues| - 1];
    assert forall i :: 0 <= i < |init| ==> init[i] == leagues[i];
  }

  lemma {:induction false} PollWithoutMarks(w: World, leagues: seq<LeagueDay>)
    requires w.marks.None?
    ensures var p := Poll(w, leagues, false);
      && p.w.marks.None?
      && ((p.failed == [] && p.total.sendFailed == 0) <==> AllDeliver(leagues))
  {
    if leagues != [] {
      var n := |leagues| - 1;
      PollWithoutMarks(w, leagues[..n]);
      AlertWithoutMarks(Poll(w, leagues[..n], false).w, leagues[n]);
      AllDeliverStep(leagues);
    }
  }

  /** With no marker store an unsent tail never holds the pointer; a league that failed to
      load or a message that was rejected always does. */
  lemma WithoutMarkersOnlyRetriesHold(s: State, day: Day)
    requires s.pointer.Some? && !day.markersOk
    requires !day.dryRun && day.archiveOk && day.publishOk
    ensures Moves(s, day) <==> AllDeliver(day.leagues)
    ensures RunDay(s, day).marks == s.marks
  {
    PollWithoutMarks(World(None, s.digests, s.named), day.leagues);
  }
}
