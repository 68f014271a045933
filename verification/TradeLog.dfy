/**
 cmd/football_trades.go and dynasty.MergeTradeLog: one alert per completed trade, and a log
 of what was alerted, one partition per day, rewritten whole on every append.
 */
module TradeLog {
  import opened Wrappers
  import opened Sorting
  import opened Text

  const DayMillis := 86_400_000
  const StaleWindow := 14 * DayMillis
  const StaleNote := "stale: marked without alert"

  /** `completed` is when the trade took effect, 0 when unknown; `summary` is its verdict. */
  datatype Trade = Trade(id: string, completed: nat, summary: string)

  /** A logged grade. A regraded row carries the marker's text as its original summary. */
  datatype Row = Row(dt: int, id: string, regraded: bool, original: string)

  datatype Faults = Faults(readOk: bool, sendOk: bool, writeOk: bool)

  /** A send the channel accepted, when, and the verdict it told. */
  datatype Sent = Sent(id: string, at: int, completed: nat, summary: string)

  datatype Counts = Counts(graded: nat, alerted: nat, skipped: nat, stale: nat)

  function Plus(a: Counts, b: Counts): Counts {
    Counts(a.graded + b.graded, a.alerted + b.alerted, a.skipped + b.skipped, a.stale + b.stale)
  }

  const Zero := Counts(0, 0, 0, 0)

  /** `marks` is None when no marker store could be built. */
  datatype World = World(marks: Option<map<string, string>>, sent: seq<Sent>)

  function DayOf(now: int): int { now / DayMillis }

  predicate IsMarked(marks: Option<map<string, string>>, id: string, readOk: bool) {
    marks.Some? && readOk && id in marks.value
  }

  predicate IsStale(t: Trade, now: int) { t.completed > 0 && now - t.completed > StaleWindow }

  function Mark(marks: Option<map<string, string>>, id: string, note: string, ok: bool): Option<map<string, string>> {
    if marks.None? || !ok then marks else Some(marks.value[id := note])
  }

  // ---------------------------------------------------------------- one league

  datatype Graded = Graded(w: World, rows: seq<Row>, counts: Counts)

  function GradeOne(w: World, t: Trade, f: Faults, now: int, dryRun: bool): Graded {
    if IsMarked(w.marks, t.id, f.readOk) then Graded(w, [], Counts(0, 0, 1, 0))
    else if IsStale(t, now) then
      Graded(if dryRun then w else w.(marks := Mark(w.marks, t.id, StaleNote, f.writeOk)),
             [], Counts(0, 0, 0, 1))
    else if dryRun || !f.sendOk then Graded(w, [], Counts(1, 0, 0, 0))
    else
      Graded(World(Mark(w.marks, t.id, t.summary, f.writeOk), w.sent + [Sent(t.id, now, t.completed, t.summary)]),
             [Row(DayOf(now), t.id, false, "")], Counts(1, 1, 0, 0))
  }

  function Grade(w: World, trades: seq<Trade>, faults: nat -> Faults, now: int, dryRun: bool): Graded {
    if trades == [] then Graded(w, [], Zero)
    else
      var n := |trades| - 1;
      var g := Grade(w, trades[..n], faults, now, dryRun);
      var one := GradeOne(g.w, trades[n], faults(n), now, dryRun);
      Graded(one.w, g.rows + one.rows, Plus(g.counts, one.counts))
  }

  class Outside {
    var marks: Option<map<string, string>>
    var sent: seq<Sent>

    constructor (marks: Option<map<string, string>>)
      ensures this.marks == marks && sent == []
    {
      this.marks, sent := marks, [];
    }

    function View(): World reads this { World(marks, sent) }

    method Record(id: string, note: string, ok: bool)
      modifies this`marks
      ensures marks == Mark(old(marks), id, note, ok)
    {
      if marks.Some? && ok { marks := Some(marks.value[id := note]); }
    }
  }

  /** One pass of the loop: check, then send, then mark. */
  method GradeAndAlertTrade(o: Outside, t: Trade, f: Faults, now: int, dryRun: bool)
    returns (rows: seq<Row>, c: Counts)
    modifies o
    ensures Graded(o.View(), rows, c) == GradeOne(old(o.View()), t, f, now, dryRun)
  {
    if IsMarked(o.marks, t.id, f.readOk) { return [], Zero.(skipped := 1); }
    if t.completed > 0 {
      if now - t.completed > StaleWindow {
        if !dryRun { o.Record(t.id, StaleNote, f.writeOk); }
        return [], Zero.(stale := 1);
      }
    }
    c := Zero.(graded := 1);
    if dryRun || !f.sendOk { return [], c; }
    o.sent := o.sent + [Sent(t.id, now, t.completed, t.summary)];
    o.Record(t.id, t.summary, f.writeOk);
    return [Row(DayOf(now), t.id, false, "")], c.(alerted := 1);
  }

  lemma GradeStep(w: World, trades: seq<Trade>, i: nat, faults: nat -> Faults, now: int, dryRun: bool)
    requires i < |trades|
    ensures var g := Grade(w, trades[..i], faults, now, dryRun);
      var one := GradeOne(g.w, trades[i], faults(i), now, dryRun);
      Grade(w, trades[..i + 1], faults, now, dryRun)
      == Graded(one.w, g.rows + one.rows, Plus(g.counts, one.counts))
  {
    assert trades[..i + 1][..i] == trades[..i];
  }

  method GradeAndAlertTrades(o: Outside, trades: seq<Trade>, faults: nat -> Faults, now: int, dryRun: bool)
    returns (rows: seq<Row>, c: Counts)
    modifies o
    ensures Graded(o.View(), rows, c) == Grade(old(o.View()), trades, faults, now, dryRun)
  {
    ghost var before := o.View();
    rows, c := [], Zero;
    for i := 0 to |trades|
      invariant Graded(o.View(), rows, c) == Grade(before, trades[..i], faults, now, dryRun)
    {
      GradeStep(before, trades, i, faults, now, dryRun);
      var more, one := GradeAndAlertTrade(o, trades[i], faults(i), now, dryRun);
      rows, c := rows + more, Plus(c, one);
    }
    assert trades[..|trades|] == trades;
  }

  // ---------------------------------------------------------------- every league

  datatype LeagueTrades = LeagueTrades(name: string, loads: bool, trades: seq<Trade>, faults: nat -> Faults)

  datatype Polled = Polled(g: Graded, found: nat, failed: seq<string>)

  function Poll(w: World, leagues: seq<LeagueTrades>, now: int, dryRun: bool): Polled {
    if leagues == [] then Polled(Graded(w, [], Zero), 0, [])
    else
      var p := Poll(w, leagues[..|leagues| - 1], now, dryRun);
      var l := leagues[|leagues| - 1];
      if !l.loads then p.(failed := p.failed + [l.name])
      else
        var g := Grade(p.g.w, l.trades, l.faults, now, dryRun);
        Polled(Graded(g.w, p.g.rows + g.rows, Plus(p.g.counts, g.counts)), p.found + |l.trades|, p.failed)
  }

  lemma PollStep(w: World, leagues: seq<LeagueTrades>, i: nat, now: int, dryRun: bool)
    requires i < |leagues|
    ensures var p := Poll(w, leagues[..i], now, dryRun);
      var l := leagues[i];
      Poll(w, leagues[..i + 1], now, dryRun) ==
        if !l.loads then p.(failed := p.failed + [l.name])
        else
          var g := Grade(p.g.w, l.trades, l.faults, now, dryRun);
          Polled(Graded(g.w, p.g.rows + g.rows, Plus(p.g.counts, g.counts)), p.found + |l.trades|, p.failed)
  {
    assert leagues[..i + 1][..i] == leagues[..i];
  }

  method PollLeagues(o: Outside, leagues: seq<LeagueTrades>, now: int, dryRun: bool)
    returns (rows: seq<Row>, total: Counts, found: nat, failed: seq<string>)
    modifies o
    ensures Polled(Graded(o.View(), rows, total), found, failed) == Poll(old(o.View()), leagues, now, dryRun)
  {
    ghost var before := o.View();
    rows, total, found, failed := [], Zero, 0, [];
    for i := 0 to |leagues|
      invariant Polled(Graded(o.View(), rows, total), found, failed) == Poll(before, leagues[..i], now, dryRun)
    {
      PollStep(before, leagues, i, now, dryRun);
      if leagues[i].loads {
        found := found + |leagues[i].trades|;
        var more, c := GradeAndAlertTrades(o, leagues[i].trades, leagues[i].faults, now, dryRun);
        rows, total := rows + more, Plus(total, c);
      } else {
        failed := failed + [leagues[i].name];
      }
    }
    assert leagues[..|leagues|] == leagues;
  }

  // ---------------------------------------------------------------- relog

  function Relog(marks: map<string, string>, trades: seq<Trade>, readOk: nat -> bool, day: int): seq<Row> {
    if trades == [] then []
    else
      var n := |trades| - 1;
      Relog(marks, trades[..n], readOk, day) +
      if readOk(n) && trades[n].id in marks
      then [Row(day, trades[n].id, true, TrimSpace(marks[trades[n].id]))] else []
  }

  method RelogRows(marks: map<string, string>, trades: seq<Trade>, readOk: nat -> bool, day: int)
    returns (rows: seq<Row>, skipped: nat)
    ensures rows == Relog(marks, trades, readOk, day)
    ensures |rows| + skipped == |trades|
  {
    rows, skipped := [], 0;
    for i := 0 to |trades|
      invariant rows == Relog(marks, trades[..i], readOk, day) && |rows| + skipped == i
    {
      assert trades[..i + 1][..i] == trades[..i];
      if !readOk(i) {
        skipped := skipped + 1;
        continue;
      }
      if trades[i].id !in marks {
        skipped := skipped + 1;
        continue;
      }
      rows := rows + [Row(day, trades[i].id, true, TrimSpace(marks[trades[i].id]))];
    }
    assert trades[..|trades|] == trades;
  }

  lemma {:induction false} RelogAre(marks: map<string, string>, trades: seq<Trade>, readOk: nat -> bool,
                                    day: int, r: Row)
    ensures r in Relog(marks, trades, readOk, day) <==>
      exists i :: 0 <= i < |trades| && readOk(i) && trades[i].id in marks
        && r == Row(day, trades[i].id, true, TrimSpace(marks[trades[i].id]))
  {
    if trades != [] {
      var n := |trades| - 1;
      assert forall i :: 0 <= i < n ==> trades[..n][i] == trades[i];
      RelogAre(marks, trades[..n], readOk, day, r);
    }
  }

  // ---------------------------------------------------------------- the merge

  predicate UniqueIds(rows: seq<Row>) {
    forall i, j :: 0 <= i < j < |rows| ==> rows[i].id != rows[j].id
  }

  /** The rows by id, the last one winning. */
  function ById(rows: seq<Row>): map<string, Row> {
    if rows == [] then map[]
    else ById(rows[..|rows| - 1])[rows[|rows| - 1].id := rows[|rows| - 1]]
  }

  /** Fold fresh rows in, the one already there winning. */
  function Merge(m: map<string, Row>, added: seq<Row>): map<string, Row> {
    if added == [] then m
    else
      var r := added[|added| - 1];
      var prior := Merge(m, added[..|added| - 1]);
      if r.id in prior then prior else prior[r.id := r]
  }

  predicate RowLeq(a: Row, b: Row) { LexLeq(a.id, b.id) }

  /** `rows` is exactly the partition `m`, each id once. */
  ghost predicate Holds(rows: seq<Row>, m: map<string, Row>) {
    && UniqueIds(rows)
    && (forall r :: r in rows ==> r.id in m && m[r.id] == r)
    && (forall id :: id in m ==> m[id] in rows && m[id].id == id)
  }

  lemma RowLeqIsTotal()
    ensures TotalPreorder(RowLeq)
  {
    LexLeqIsTotalOrder();
  }

  method MergeTradeLog(prior: seq<Row>, added: seq<Row>) returns (out: seq<Row>)
    ensures Holds(out, Merge(ById(prior), added)) && Sorted(RowLeq, out)
    ensures |out| == |Merge(ById(prior), added)|
    ensures forall i, j :: 0 <= i < j < |out| ==> LexLeq(out[i].id, out[j].id)
  {
    var byId := map[];
    for i := 0 to |prior|
      invariant byId == ById(prior[..i])
    {
      assert prior[..i + 1][..i] == prior[..i];
      byId := byId[prior[i].id := prior[i]];
    }
    assert prior[..|prior|] == prior;
    for i := 0 to |added|
      invariant byId == Merge(ById(prior), added[..i])
    {
      assert added[..i + 1][..i] == added[..i];
      if added[i].id in byId { continue; }
      byId := byId[added[i].id := added[i]];
    }
    assert added[..|added|] == added;
    IdsMatch(prior, added);
    out := Values(byId);
    RowLeqIsTotal();
    SortSorts(RowLeq, out);
    SortKeepsRows(out, Sort(RowLeq, out), byId);
    out := Sort(RowLeq, out);
    assert forall i, j :: 0 <= i < j < |out| ==> RowLeq(out[i], out[j]);
  }

  predicate Keyed(m: map<string, Row>) { forall id :: id in m ==> m[id].id == id }

  lemma {:induction false} IdsMatch(prior: seq<Row>, more: seq<Row>)
    ensures Keyed(ById(prior)) && Keyed(Merge(ById(prior), more))
    decreases |prior|, |more|
  {
    if prior != [] { IdsMatch(prior[..|prior| - 1], []); }
    if more != [] { IdsMatch(prior, more[..|more| - 1]); }
  }

  /** The values of a map in no particular order. */
  method Values(m: map<string, Row>) returns (rows: seq<Row>)
    requires Keyed(m)
    ensures Holds(rows, m) && |rows| == |m|
  {
    rows := [];
    var left := m.Keys;
    while left != {}
      invariant left <= m.Keys && |rows| + |left| == |m.Keys|
      invariant UniqueIds(rows)
      invariant forall r :: r in rows ==> r.id in m && r.id !in left && m[r.id] == r
      invariant forall id :: id in m && id !in left ==> m[id] in rows && m[id].id == id
    {
      NonEmpty(left);
      var id :| id in left;
      left := left - {id};
      rows := rows + [m[id]];
    }
  }

  lemma SortKeepsRows(a: seq<Row>, b: seq<Row>, m: map<string, Row>)
    requires Holds(a, m) && multiset(a) == multiset(b)
    ensures Holds(b, m) && |b| == |a|
  {
    SameElements(a, b);
    StillDifferent(a, b);
    forall i, j | 0 <= i < j < |b| ensures b[i].id != b[j].id {
      assert b[i] in a && b[j] in a && b[i] == m[b[i].id] && b[j] == m[b[j].id];
    }
  }

  // ---------------------------------------------------------------- the durable log

  function OnDay(rows: seq<Row>, day: int): seq<Row> { Filter((r: Row) => r.dt == day, rows) }

  /** One day's file: its own rows only, and no id twice. */
  ghost predicate IsPartition(rows: seq<Row>, day: int) {
    UniqueIds(rows) && forall r :: r in rows ==> r.dt == day
  }

  function ViewOf(parts: map<int, seq<Row>>): map<int, map<string, Row>> {
    map d | d in parts :: ById(parts[d])
  }

  lemma ViewOfUpdate(parts: map<int, seq<Row>>, day: int, rows: seq<Row>)
    ensures ViewOf(parts[day := rows]) == ViewOf(parts)[day := ById(rows)]
    ensures PartitionAt(ViewOf(parts), day) == ById(if day in parts then parts[day] else [])
  {
  }

  class LogStore {
    var parts: map<int, seq<Row>>

    constructor ()
      ensures parts == map[] && Valid()
    {
      parts := map[];
    }

    /** Every row sits in the partition of its own day, and no id twice in one. */
    ghost predicate Valid()
      reads this
    {
      forall d :: d in parts ==> IsPartition(parts[d], d)
    }

    /** What the log says, day by day. */
    function View(): map<int, map<string, Row>>
      reads this
    {
      ViewOf(parts)
    }

    /** Every partition, in whatever order the store lists them. */
    method ReadAll(days: seq<int>) returns (all: seq<Row>)
      requires forall d :: d in days ==> d in parts
      ensures all == Together(parts, days)
    {
      all := [];
      for i := 0 to |days|
        invariant all == Together(parts, days[..i])
      {
        var day := days[i];
        assert day in days;
        assert days[..i + 1][..i] == days[..i];
        all := all + parts[day];
      }
      assert days[..|days|] == days;
    }

    /** The rows a day already holds, picked out of the whole log. */
    method Prior(day: int, days: seq<int>) returns (prior: seq<Row>)
      requires Valid() && AllDifferent(days) && forall d :: d in days <==> d in parts
      ensures prior == if day in parts then parts[day] else []
    {
      var all := ReadAll(days);
      prior := [];
      for i := 0 to |all|
        invariant prior == OnDay(all[..i], day)
      {
        FilterStep((r: Row) => r.dt == day, all, i);
        if all[i].dt == day { prior := prior + [all[i]]; }
      }
      assert all[..|all|] == all;
      OnDayOfTogether(parts, days, day);
    }

    /** `appendFootballTradeLog`: fold rows of one day into its partition and rewrite it. */
    method Append(day: int, added: seq<Row>, readOk: bool, writeOk: bool, days: seq<int>)
      returns (count: Option<nat>)
      requires Valid() && AllDifferent(days) && forall d :: d in days <==> d in parts
      requires forall r :: r in added ==> r.dt == day
      modifies this
      ensures Valid()
      ensures View() == if readOk && writeOk then Appended(old(View()), day, added) else old(View())
      ensures count == if readOk && writeOk then Some(Added(old(View()), day, added)) else None
    {
      if !readOk || !writeOk { return None; }
      var prior := Prior(day, days);
      var merged := MergeTradeLog(prior, added);
      Rewritten(prior, added, merged, day);
      ViewOfUpdate(parts, day, merged);
      parts := parts[day := merged];
      count := Some(|merged| - |prior|);
    }
  }

  function Together(parts: map<int, seq<Row>>, days: seq<int>): seq<Row>
    requires forall d :: d in days ==> d in parts
  {
    if days == [] then []
    else
      var last := days[|days| - 1];
      assert last in days;
      Together(parts, days[..|days| - 1]) + parts[last]
  }

  /** Picking one day's rows out of the whole log gives exactly that day's partition. */
  lemma {:induction false} OnDayOfTogether(parts: map<int, seq<Row>>, days: seq<int>, day: int)
    requires AllDifferent(days) && forall d :: d in days ==> d in parts && IsPartition(parts[d], d)
    ensures OnDay(Together(parts, days), day) == if day in days then parts[day] else []
  {
    if days != [] {
      var init, last := days[..|days| - 1], days[|days| - 1];
      assert days == init + [last] && last in days && last !in init;
      OnDayOfTogether(parts, init, day);
      FilterAppend((r: Row) => r.dt == day, Together(parts, init), parts[last]);
      if day == last { FilterAll((r: Row) => r.dt == day, parts[last]); }
      else { FilterNone((r: Row) => r.dt == day, parts[last]); }
    }
  }

  lemma Rewritten(prior: seq<Row>, added: seq<Row>, merged: seq<Row>, day: int)
    requires IsPartition(prior, day) && forall r :: r in added ==> r.dt == day
    requires Holds(merged, Merge(ById(prior), added)) && |merged| == |Merge(ById(prior), added)|
    ensures IsPartition(merged, day) && ById(merged) == Merge(ById(prior), added)
    ensures |merged| == |prior| + |Ids(added) - ById(prior).Keys|
  {
    ByIdSize(prior);
    MergeGrows(ById(prior), added);
    HeldIsById(merged, Merge(ById(prior), added));
    forall r | r in merged ensures r.dt == day {
      if r.id in ById(prior) { ByIdFrom(prior, r.id); }
      assert r in prior || r in added;
    }
  }

  function PartitionAt(log: map<int, map<string, Row>>, day: int): map<string, Row> {
    if day in log then log[day] else map[]
  }

  function Appended(log: map<int, map<string, Row>>, day: int, added: seq<Row>): map<int, map<string, Row>> {
    log[day := Merge(PartitionAt(log, day), added)]
  }

  function Ids(rows: seq<Row>): set<string> { set r | r in rows :: r.id }

  /** How many rows an append really adds: ids the day did not hold yet. */
  function Added(log: map<int, map<string, Row>>, day: int, added: seq<Row>): nat {
    |Ids(added) - PartitionAt(log, day).Keys|
  }

  lemma UnionSize(a: set<string>, b: set<string>)
    ensures |a + b| == |a| + |b - a|
  {
    assert a + b == a + (b - a);
  }

  /** Merging drops nothing, overwrites nothing, and adds one row per id not held yet. */
  lemma MergeGrows(m: map<string, Row>, added: seq<Row>)
    ensures var all := Merge(m, added);
      && (forall id :: id in m ==> id in all && all[id] == m[id])
      && (forall id :: id in all && id !in m ==> all[id] in added && all[id].id == id)
      && all.Keys == m.Keys + Ids(added)
      && |all| == |m| + |Ids(added) - m.Keys|
  {
    MergeKeys(m, added);
    UnionSize(m.Keys, Ids(added));
    assert |Merge(m, added)| == |Merge(m, added).Keys| && |m| == |m.Keys|;
  }

  lemma {:induction false} MergeKeys(m: map<string, Row>, added: seq<Row>)
    ensures var all := Merge(m, added);
      && (forall id :: id in m ==> id in all && all[id] == m[id])
      && (forall id :: id in all && id !in m ==> all[id] in added && all[id].id == id)
      && all.Keys == m.Keys + Ids(added)
  {
    if added == [] {
      assert Ids(added) == {};
    } else {
      var init, r := added[..|added| - 1], added[|added| - 1];
      MergeKeys(m, init);
      IdsAppend(init, r);
      assert added == init + [r];
    }
  }

  lemma IdsAppend(init: seq<Row>, r: Row)
    ensures Ids(init + [r]) == Ids(init) + {r.id}
  {
    assert forall x :: x in init + [r] <==> x in init || x == r;
  }

  lemma {:induction false} ByIdFrom(rows: seq<Row>, id: string)
    requires id in ById(rows)
    ensures ById(rows)[id] in rows && ById(rows)[id].id == id
  {
    var n := |rows| - 1;
    assert rows == rows[..n] + [rows[n]];
    if id != rows[n].id { ByIdFrom(rows[..n], id); }
  }

  lemma {:induction false} ByIdOf(rows: seq<Row>, k: nat)
    requires UniqueIds(rows) && k < |rows|
    ensures rows[k].id in ById(rows) && ById(rows)[rows[k].id] == rows[k]
  {
    if k < |rows| - 1 { ByIdOf(rows[..|rows| - 1], k); }
  }

  lemma {:induction false} ByIdSize(rows: seq<Row>)
    requires UniqueIds(rows)
    ensures |ById(rows)| == |rows|
  {
    if rows != [] {
      var init, last := rows[..|rows| - 1], rows[|rows| - 1];
      ByIdSize(init);
      var m := ById(init);
      if last.id in m { ByIdFrom(init, last.id); }
      assert last.id !in m;
      assert m[last.id := last].Keys == m.Keys + {last.id};
    }
  }

  /** A file that holds a partition is read back as exactly that partition. */
  lemma HeldIsById(rows: seq<Row>, m: map<string, Row>)
    requires Holds(rows, m)
    ensures ById(rows) == m
  {
    forall id | id in ById(rows) ensures id in m && ById(rows)[id] == m[id] { ByIdFrom(rows, id); }
    forall id | id in m ensures id in ById(rows) {
      var k :| 0 <= k < |rows| && rows[k] == m[id];
      ByIdOf(rows, k);
    }
  }
}
