/** What holds of the trade alerts, their markers and the log over every run of polls and relogs. */
module TradeTheorems {
  import opened Wrappers
  import opened Text
  import opened TradeLog

  /** The markers that survive between runs, everything ever sent, and the durable log. */
  datatype State = State(marks: map<string, string>, sent: seq<Sent>, log: map<int, map<string, Row>>)

  /** One run. `markersOk` is whether the marker store could be built, `logOk` whether the
      log could be read and written. */
  datatype Job = Job(relog: bool, now: int, leagues: seq<LeagueTrades>, markersOk: bool,
                     dryRun: bool, logOk: bool)

  /** The rows a relog rebuilds, across the leagues that load. */
  function RelogAll(marks: map<string, string>, leagues: seq<LeagueTrades>, day: int): seq<Row> {
    if leagues == [] then []
    else
      var l := leagues[|leagues| - 1];
      RelogAll(marks, leagues[..|leagues| - 1], day) +
      if l.loads then Relog(marks, l.trades, (n: nat) => l.faults(n).readOk, day) else []
  }

  function Logged(log: map<int, map<string, Row>>, day: int, rows: seq<Row>, ok: bool): map<int, map<string, Row>> {
    if rows == [] || !ok then log else Appended(log, day, rows)
  }

  function Next(s: State, j: Job): State {
    if j.relog then
      if !j.markersOk || j.dryRun then s
      else s.(log := Logged(s.log, DayOf(j.now), RelogAll(s.marks, j.leagues, DayOf(j.now)), j.logOk))
    else
      var p := Poll(World(if j.markersOk then Some(s.marks) else None, s.sent), j.leagues, j.now, j.dryRun);
      State(if p.g.w.marks.Some? then p.g.w.marks.value else s.marks, p.g.w.sent,
            Logged(s.log, DayOf(j.now), p.g.rows, j.logOk))
  }

  function Run(s: State, jobs: seq<Job>): State {
    if jobs == [] then s else Next(Run(s, jobs[..|jobs| - 1]), jobs[|jobs| - 1])
  }

  const Empty := State(map[], [], map[])

  // ---------------------------------------------------------------- sends and markers

  predicate IsSendOf(x: Sent, id: string) { x.id == id }

  predicate WasSent(sent: seq<Sent>, id: string) { exists k :: 0 <= k < |sent| && IsSendOf(sent[k], id) }

  /** A send of this trade that told this verdict, give or take white space around it. */
  predicate IsTold(x: Sent, id: string, verdict: string) { x.id == id && TrimSpace(x.summary) == verdict }

  predicate WasTold(sent: seq<Sent>, id: string, verdict: string) {
    exists k :: 0 <= k < |sent| && IsTold(sent[k], id, verdict)
  }

  predicate IsSendOn(x: Sent, id: string, day: int) { x.id == id && DayOf(x.at) == day }

  predicate SentOn(sent: seq<Sent>, id: string, day: int) {
    exists k :: 0 <= k < |sent| && IsSendOn(sent[k], id, day)
  }

  predicate NotStale(x: Sent) { x.completed == 0 || x.at - x.completed <= StaleWindow }

  /** Nothing stale was ever sent, and a marker holds a verdict that was sent unless it says
      stale. */
  ghost predicate WorldOk(w: World) {
    && (forall k :: 0 <= k < |w.sent| ==> NotStale(w.sent[k]))
    && (w.marks.Some? ==> MarksOk(w.marks.value, w.sent))
  }

  ghost predicate MarksOk(marks: map<string, string>, sent: seq<Sent>) {
    forall id :: id in marks ==> marks[id] == StaleNote || WasTold(sent, id, TrimSpace(marks[id]))
  }

  /** Sends are never forgotten and markers never removed. */
  predicate Grows(v: World, w: World) {
    v.sent <= w.sent && (v.marks.Some? <==> w.marks.Some?)
    && (v.marks.Some? ==> v.marks.value.Keys <= w.marks.value.Keys)
  }

  /** Every row is a send of that day. */
  ghost predicate RowsSent(rows: seq<Row>, sent: seq<Sent>, day: int) {
    forall r :: r in rows ==> r.dt == day && !r.regraded && SentOn(sent, r.id, day)
  }

  lemma SendsStay(sent: seq<Sent>, more: seq<Sent>)
    requires sent <= more
    ensures forall id :: WasSent(sent, id) ==> WasSent(more, id)
    ensures forall id, day :: SentOn(sent, id, day) ==> SentOn(more, id, day)
    ensures forall id, verdict :: WasTold(sent, id, verdict) ==> WasTold(more, id, verdict)
  {
    forall id, verdict | WasTold(sent, id, verdict) ensures WasTold(more, id, verdict) {
      var k :| 0 <= k < |sent| && IsTold(sent[k], id, verdict);
      assert IsTold(more[k], id, verdict);
    }
    forall id | WasSent(sent, id) ensures WasSent(more, id) {
      var k :| 0 <= k < |sent| && IsSendOf(sent[k], id);
      assert IsSendOf(more[k], id);
    }
    forall id, day | SentOn(sent, id, day) ensures SentOn(more, id, day) {
      var k :| 0 <= k < |sent| && IsSendOn(sent[k], id, day);
      assert IsSendOn(more[k], id, day);
    }
  }

  lemma GradeOneKeeps(w: World, t: Trade, f: Faults, now: int, dryRun: bool)
    requires WorldOk(w)
    ensures var g := GradeOne(w, t, f, now, dryRun);
      && WorldOk(g.w) && Grows(w, g.w) && RowsSent(g.rows, g.w.sent, DayOf(now))
      && g.counts.alerted == |g.rows| == |g.w.sent| - |w.sent|
      && g.counts.skipped + g.counts.stale + g.counts.graded == 1
  {
    var g := GradeOne(w, t, f, now, dryRun);
    SendsStay(w.sent, g.w.sent);
    if g.rows != [] {
      var k := |w.sent|;
      assert IsSendOf(g.w.sent[k], t.id) && IsSendOn(g.w.sent[k], t.id, DayOf(now));
      assert IsTold(g.w.sent[k], t.id, TrimSpace(t.summary));
    }
  }

  lemma {:induction false} GradeKeeps(w: World, trades: seq<Trade>, faults: nat -> Faults, now: int, dryRun: bool)
    requires WorldOk(w)
    ensures var g := Grade(w, trades, faults, now, dryRun);
      && WorldOk(g.w) && Grows(w, g.w) && RowsSent(g.rows, g.w.sent, DayOf(now))
      && g.counts.alerted == |g.rows| == |g.w.sent| - |w.sent|
      && g.counts.skipped + g.counts.stale + g.counts.graded == |trades|
  {
    if trades != [] {
      var n := |trades| - 1;
      GradeKeeps(w, trades[..n], faults, now, dryRun);
      var g := Grade(w, trades[..n], faults, now, dryRun);
      GradeOneKeeps(g.w, trades[n], faults(n), now, dryRun);
      SendsStay(g.w.sent, GradeOne(g.w, trades[n], faults(n), now, dryRun).w.sent);
    }
  }

  /** Every trade of a league that loads is counted exactly once, and exactly the sends of
      this poll are the alerts it counts and the rows it hands to the log. */
  lemma {:induction false} PollAccountsForEveryTrade(w: World, leagues: seq<LeagueTrades>, now: int, dryRun: bool)
    requires WorldOk(w)
    ensures var p := Poll(w, leagues, now, dryRun);
      && WorldOk(p.g.w) && Grows(w, p.g.w) && RowsSent(p.g.rows, p.g.w.sent, DayOf(now))
      && p.g.counts.alerted == |p.g.rows| == |p.g.w.sent| - |w.sent|
      && p.g.counts.skipped + p.g.counts.stale + p.g.counts.graded == p.found
  {
    if leagues != [] {
      var init, l := leagues[..|leagues| - 1], leagues[|leagues| - 1];
      PollAccountsForEveryTrade(w, init, now, dryRun);
      var p := Poll(w, init, now, dryRun);
      if l.loads {
        GradeKeeps(p.g.w, l.trades, l.faults, now, dryRun);
        SendsStay(p.g.w.sent, Grade(p.g.w, l.trades, l.faults, now, dryRun).w.sent);
      }
    }
  }

  // ---------------------------------------------------------------- the log

  /** A captured row was sent on its day. A regraded one had a marker, and was sent too
      unless that marker said the trade was skipped as stale: it carries over the very
      verdict that was told. */
  predicate RowOk(r: Row, s: State) {
    if r.regraded then r.id in s.marks && (r.original != StaleNote ==> WasTold(s.sent, r.id, r.original))
    else SentOn(s.sent, r.id, r.dt)
  }

  ghost predicate Valid(s: State) {
    && WorldOk(World(Some(s.marks), s.sent))
    && forall d, id :: d in s.log && id in s.log[d] ==>
         s.log[d][id].dt == d && s.log[d][id].id == id && RowOk(s.log[d][id], s)
  }

  /** An append leaves every row where it was; whatever else it leaves it was given. */
  lemma LoggedRows(log: map<int, map<string, Row>>, day: int, rows: seq<Row>, ok: bool)
    ensures var t := Logged(log, day, rows, ok);
      && (forall d, id :: d in log && id in log[d] ==> d in t && id in t[d] && t[d][id] == log[d][id])
      && (forall d, id :: d in t && id in t[d] && (d !in log || id !in log[d]) ==>
            d == day && t[d][id] in rows && t[d][id].id == id)
  {
    MergeGrows(PartitionAt(log, day), rows);
  }

  lemma AppendKeeps(s: State, t: State, day: int, rows: seq<Row>, ok: bool)
    requires Valid(s) && t.log == Logged(s.log, day, rows, ok)
    requires s.sent <= t.sent && s.marks.Keys <= t.marks.Keys && WorldOk(World(Some(t.marks), t.sent))
    requires forall r :: r in rows ==> r.dt == day && RowOk(r, t)
    ensures Valid(t)
  {
    SendsStay(s.sent, t.sent);
    LoggedRows(s.log, day, rows, ok);
    forall d, id | d in t.log && id in t.log[d]
      ensures t.log[d][id].dt == d && t.log[d][id].id == id && RowOk(t.log[d][id], t)
    {
      if d in s.log && id in s.log[d] { assert RowOk(s.log[d][id], s); }
    }
  }

  lemma {:induction false} RelogAllFrom(marks: map<string, string>, leagues: seq<LeagueTrades>, day: int, r: Row)
    requires r in RelogAll(marks, leagues, day)
    ensures r.dt == day && r.regraded && r.id in marks && r.original == TrimSpace(marks[r.id])
  {
    var init, l := leagues[..|leagues| - 1], leagues[|leagues| - 1];
    if r in RelogAll(marks, init, day) { RelogAllFrom(marks, init, day, r); }
    else { RelogAre(marks, l.trades, (n: nat) => l.faults(n).readOk, day, r); }
  }

  lemma StaleNoteIsTrim()
    ensures TrimSpace(StaleNote) == StaleNote
  {
    assert StaleNote[0] == 's' && StaleNote[|StaleNote| - 1] == 't';
  }

  lemma NextKeeps(s: State, j: Job)
    requires Valid(s)
    ensures Valid(Next(s, j)) && s.sent <= Next(s, j).sent
  {
    var t := Next(s, j);
    if j.relog {
      if t != s {
        var rows := RelogAll(s.marks, j.leagues, DayOf(j.now));
        StaleNoteIsTrim();
        forall r | r in rows ensures r.dt == DayOf(j.now) && RowOk(r, t) {
          RelogAllFrom(s.marks, j.leagues, DayOf(j.now), r);
        }
        AppendKeeps(s, t, DayOf(j.now), rows, j.logOk);
      }
    } else {
      var w := World(if j.markersOk then Some(s.marks) else None, s.sent);
      PollAccountsForEveryTrade(w, j.leagues, j.now, j.dryRun);
      var p := Poll(w, j.leagues, j.now, j.dryRun);
      SendsStay(s.sent, t.sent);
      AppendKeeps(s, t, DayOf(j.now), p.g.rows, j.logOk);
    }
  }

  /** Over every run of polls and relogs, whatever fails: a captured row was alerted on the
      day it is filed under, and a relogged one was alerted unless its marker says the trade
      was passed over as stale. */
  lemma {:induction false} LogTellsWhatWasAlerted(jobs: seq<Job>)
    ensures Valid(Run(Empty, jobs))
  {
    if jobs != [] {
      LogTellsWhatWasAlerted(jobs[..|jobs| - 1]);
      NextKeeps(Run(Empty, jobs[..|jobs| - 1]), jobs[|jobs| - 1]);
    }
  }

  /** No trade older than the window, by its completion, is ever sent. */
  lemma NoStaleTradeIsSent(jobs: seq<Job>, k: nat)
    requires k < |Run(Empty, jobs).sent|
    ensures var x := Run(Empty, jobs).sent[k]; x.completed > 0 ==> x.at - x.completed <= StaleWindow
  {
    LogTellsWhatWasAlerted(jobs);
    assert NotStale(Run(Empty, jobs).sent[k]);
  }

  // ---------------------------------------------------------------- what is alerted, is alerted

  predicate PassedOver(w: World, id: string) {
    w.marks.Some? && id in w.marks.value && w.marks.value[id] == StaleNote
  }

  /** The trade has been sent, or is too old to be, or was too old when it was first seen. */
  predicate Settled(w: World, t: Trade, now: int) {
    WasSent(w.sent, t.id) || IsStale(t, now) || PassedOver(w, t.id)
  }

  lemma GradeOneSettles(w: World, t: Trade, f: Faults, now: int)
    requires WorldOk(w) && f.sendOk
    ensures Settled(GradeOne(w, t, f, now, false).w, t, now)
  {
    var g := GradeOne(w, t, f, now, false);
    if IsMarked(w.marks, t.id, f.readOk) {
      ToldIsSent(w.sent, t.id, TrimSpace(w.marks.value[t.id]));
    } else if !IsStale(t, now) {
      assert IsSendOf(g.w.sent[|w.sent|], t.id);
    }
  }

  lemma ToldIsSent(sent: seq<Sent>, id: string, verdict: string)
    ensures WasTold(sent, id, verdict) ==> WasSent(sent, id)
  {
    if WasTold(sent, id, verdict) {
      var k :| 0 <= k < |sent| && IsTold(sent[k], id, verdict);
      assert IsSendOf(sent[k], id);
    }
  }

  lemma SettledStays(w: World, u: Trade, f: Faults, now: int, t: Trade)
    requires Settled(w, t, now)
    ensures Settled(GradeOne(w, u, f, now, false).w, t, now)
  {
    var g := GradeOne(w, u, f, now, false);
    SendsStay(w.sent, g.w.sent);
    if u.id == t.id && |g.w.sent| > |w.sent| { assert IsSendOf(g.w.sent[|w.sent|], t.id); }
  }

  lemma {:induction false} SettledStaysThrough(w: World, trades: seq<Trade>, faults: nat -> Faults,
                                               now: int, t: Trade)
    requires Settled(w, t, now)
    ensures Settled(Grade(w, trades, faults, now, false).w, t, now)
  {
    if trades != [] {
      var n := |trades| - 1;
      SettledStaysThrough(w, trades[..n], faults, now, t);
      SettledStays(Grade(w, trades[..n], faults, now, false).w, trades[n], faults(n), now, t);
    }
  }

  lemma {:induction false} GradeSettles(w: World, trades: seq<Trade>, faults: nat -> Faults, now: int, i: nat)
    requires WorldOk(w) && i < |trades| && faults(i).sendOk
    ensures Settled(Grade(w, trades, faults, now, false).w, trades[i], now)
  {
    var n := |trades| - 1;
    GradeKeeps(w, trades[..n], faults, now, false);
    var g := Grade(w, trades[..n], faults, now, false);
    if i == n {
      GradeOneSettles(g.w, trades[n], faults(n), now);
    } else {
      GradeSettles(w, trades[..n], faults, now, i);
      SettledStays(g.w, trades[n], faults(n), now, trades[i]);
    }
  }

  lemma {:induction false} PollSettles(w: World, leagues: seq<LeagueTrades>, now: int, k: nat, i: nat)
    requires WorldOk(w) && k < |leagues| && leagues[k].loads
    requires i < |leagues[k].trades| && leagues[k].faults(i).sendOk
    ensures Settled(Poll(w, leagues, now, false).g.w, leagues[k].trades[i], now)
  {
    var n := |leagues| - 1;
    PollAccountsForEveryTrade(w, leagues[..n], now, false);
    var p, l := Poll(w, leagues[..n], now, false), leagues[n];
    if k == n {
      GradeSettles(p.g.w, l.trades, l.faults, now, i);
    } else {
      PollSettles(w, leagues[..n], now, k, i);
      if l.loads { SettledStaysThrough(p.g.w, l.trades, l.faults, now, leagues[k].trades[i]); }
    }
  }

  /** The rows that report these sends. */
  function RowsOf(sends: seq<Sent>): seq<Row> {
    if sends == [] then []
    else
      var x := sends[|sends| - 1];
      RowsOf(sends[..|sends| - 1]) + [Row(DayOf(x.at), x.id, false, "")]
  }

  lemma {:induction false} RowsOfAppend(a: seq<Sent>, b: seq<Sent>)
    ensures RowsOf(a + b) == RowsOf(a) + RowsOf(b)
  {
    if b == [] {
      assert a + b == a;
    } else {
      assert (a + b)[..|a + b| - 1] == a + b[..|b| - 1];
      RowsOfAppend(a, b[..|b| - 1]);
    }
  }

  /** One more stretch of sends, and its rows. */
  lemma RowsChain(a: seq<Sent>, b: seq<Sent>, c: seq<Sent>, first: seq<Row>, second: seq<Row>)
    requires a <= b <= c && first == RowsOf(b[|a|..]) && second == RowsOf(c[|b|..])
    ensures first + second == RowsOf(c[|a|..])
  {
    assert c[|a|..] == b[|a|..] + c[|b|..];
    RowsOfAppend(b[|a|..], c[|b|..]);
  }

  lemma GradeOneRows(w: World, t: Trade, f: Faults, now: int, dryRun: bool)
    ensures var g := GradeOne(w, t, f, now, dryRun); w.sent <= g.w.sent && g.rows == RowsOf(g.w.sent[|w.sent|..])
  {
    var x := Sent(t.id, now, t.completed, t.summary);
    assert (w.sent + [x])[|w.sent|..] == [x] && [x][..0] == [];
    assert w.sent[|w.sent|..] == [];
  }

  lemma {:induction false} GradeRows(w: World, trades: seq<Trade>, faults: nat -> Faults, now: int, dryRun: bool)
    ensures var g := Grade(w, trades, faults, now, dryRun);
      w.sent <= g.w.sent && g.rows == RowsOf(g.w.sent[|w.sent|..])
  {
    if trades != [] {
      var n := |trades| - 1;
      GradeRows(w, trades[..n], faults, now, dryRun);
      var g := Grade(w, trades[..n], faults, now, dryRun);
      var one := GradeOne(g.w, trades[n], faults(n), now, dryRun);
      GradeOneRows(g.w, trades[n], faults(n), now, dryRun);
      RowsChain(w.sent, g.w.sent, one.w.sent, g.rows, one.rows);
    }
  }

  /** The rows a poll hands to the log are exactly its sends, in order, on the day of each. */
  lemma {:induction false} RowsAreTheSends(w: World, leagues: seq<LeagueTrades>, now: int, dryRun: bool)
    ensures var p := Poll(w, leagues, now, dryRun);
      w.sent <= p.g.w.sent && p.g.rows == RowsOf(p.g.w.sent[|w.sent|..])
  {
    if leagues != [] {
      var init, l := leagues[..|leagues| - 1], leagues[|leagues| - 1];
      RowsAreTheSends(w, init, now, dryRun);
      var p := Poll(w, init, now, dryRun);
      if l.loads {
        var g := Grade(p.g.w, l.trades, l.faults, now, dryRun);
        GradeRows(p.g.w, l.trades, l.faults, now, dryRun);
        RowsChain(w.sent, p.g.w.sent, g.w.sent, p.g.rows, g.rows);
      }
    }
  }

  lemma {:induction false} EverySendHasItsRow(sends: seq<Sent>, m: nat)
    requires m < |sends|
    ensures Row(DayOf(sends[m].at), sends[m].id, false, "") in RowsOf(sends)
  {
    if m < |sends| - 1 { EverySendHasItsRow(sends[..|sends| - 1], m); }
  }

  /** The send tells of this trade, as it is, now. */
  predicate IsOf(x: Sent, t: Trade, now: int) { x == Sent(t.id, now, t.completed, t.summary) }

  predicate OfSome(x: Sent, trades: seq<Trade>, now: int) {
    exists i :: 0 <= i < |trades| && IsOf(x, trades[i], now)
  }

  predicate OfLeagues(x: Sent, leagues: seq<LeagueTrades>, now: int) {
    exists k :: 0 <= k < |leagues| && leagues[k].loads && OfSome(x, leagues[k].trades, now)
  }

  lemma OfSomeGrows(x: Sent, trades: seq<Trade>, now: int)
    requires trades != []
    ensures OfSome(x, trades, now) <==>
      OfSome(x, trades[..|trades| - 1], now) || IsOf(x, trades[|trades| - 1], now)
  {
    var init := trades[..|trades| - 1];
    assert forall i :: 0 <= i < |init| ==> init[i] == trades[i];
  }

  lemma OfLeaguesGrows(x: Sent, leagues: seq<LeagueTrades>, now: int)
    requires leagues != []
    ensures var l := leagues[|leagues| - 1];
      OfLeagues(x, leagues, now) <==>
        OfLeagues(x, leagues[..|leagues| - 1], now) || (l.loads && OfSome(x, l.trades, now))
  {
    var init := leagues[..|leagues| - 1];
    assert forall k :: 0 <= k < |init| ==> init[k] == leagues[k];
  }

  lemma {:induction false} GradeSends(w: World, trades: seq<Trade>, faults: nat -> Faults, now: int, dryRun: bool)
    ensures var g := Grade(w, trades, faults, now, dryRun);
      forall m :: |w.sent| <= m < |g.w.sent| ==> OfSome(g.w.sent[m], trades, now)
  {
    if trades != [] {
      var n := |trades| - 1;
      var g, h := Grade(w, trades[..n], faults, now, dryRun), Grade(w, trades, faults, now, dryRun);
      GradeSends(w, trades[..n], faults, now, dryRun);
      GradeRows(w, trades[..n], faults, now, dryRun);
      GradeOneRows(g.w, trades[n], faults(n), now, dryRun);
      forall m | |w.sent| <= m < |h.w.sent| ensures OfSome(h.w.sent[m], trades, now) {
        OfSomeGrows(h.w.sent[m], trades, now);
        GradeOneSends(g.w, trades[n], faults(n), now, dryRun);
        assert m < |g.w.sent| ==> h.w.sent[m] == g.w.sent[m];
      }
    }
  }

  lemma GradeOneSends(w: World, t: Trade, f: Faults, now: int, dryRun: bool)
    ensures var g := GradeOne(w, t, f, now, dryRun);
      forall m :: |w.sent| <= m < |g.w.sent| ==> IsOf(g.w.sent[m], t, now)
  {
  }

  /** Whatever a poll sends is about a trade of a league that loaded: its id, when it took
      effect, and the verdict on it, at the time of the poll. */
  lemma {:induction false} EverySendIsOfATrade(w: World, leagues: seq<LeagueTrades>, now: int, dryRun: bool)
    ensures var p := Poll(w, leagues, now, dryRun);
      forall m :: |w.sent| <= m < |p.g.w.sent| ==> OfLeagues(p.g.w.sent[m], leagues, now)
  {
    if leagues != [] {
      var init, l := leagues[..|leagues| - 1], leagues[|leagues| - 1];
      var p, q := Poll(w, init, now, dryRun), Poll(w, leagues, now, dryRun);
      EverySendIsOfATrade(w, init, now, dryRun);
      RowsAreTheSends(w, init, now, dryRun);
      if l.loads {
        GradeSends(p.g.w, l.trades, l.faults, now, dryRun);
        GradeRows(p.g.w, l.trades, l.faults, now, dryRun);
      }
      forall m | |w.sent| <= m < |q.g.w.sent| ensures OfLeagues(q.g.w.sent[m], leagues, now) {
        OfLeaguesGrows(q.g.w.sent[m], leagues, now);
        assert m < |p.g.w.sent| ==> q.g.w.sent[m] == p.g.w.sent[m];
      }
    }
  }

  /** The k-th league loads, and the channel takes a message about its i-th trade. */
  predicate Reachable(j: Job, k: nat, i: nat) {
    && k < |j.leagues| && j.leagues[k].loads
    && i < |j.leagues[k].trades| && j.leagues[k].faults(i).sendOk
  }

  /** After any runs of polls and relogs: a poll that is not dry leaves no trade of a league
      that loads unannounced if the channel takes it, unless it is too old or was when first
      seen. */
  lemma FreshTradesAreAlerted(jobs: seq<Job>, j: Job, k: nat, i: nat)
    requires !j.relog && !j.dryRun && Reachable(j, k, i)
    ensures AlertedUnlessOld(Next(Run(Empty, jobs), j), j.leagues[k].trades[i], j.now)
  {
    LogTellsWhatWasAlerted(jobs);
    var s := Run(Empty, jobs);
    PollSettles(World(if j.markersOk then Some(s.marks) else None, s.sent), j.leagues, j.now, k, i);
  }

  /** Older than fourteen days; a trade whose completion is unknown never is. */
  predicate TooOld(x: Trade, now: int) { x.completed != 0 && now > x.completed + 14 * 24 * 60 * 60 * 1000 }

  predicate AlertedUnlessOld(t: State, x: Trade, now: int) {
    WasSent(t.sent, x.id) || TooOld(x, now) || (x.id in t.marks && t.marks[x.id] == StaleNote)
  }

  /** Which trade counts as what: skipped for a marker that can be read, stale for its age,
      graded otherwise, and alerted when the run is not dry and the channel took it. */
  lemma TradeIsCountedAs(w: World, t: Trade, f: Faults, now: int, dryRun: bool)
    ensures var c := GradeOne(w, t, f, now, dryRun).counts;
      var marked := w.marks.Some? && f.readOk && t.id in w.marks.value;
      && c.skipped == (if marked then 1 else 0)
      && c.stale == (if !marked && TooOld(t, now) then 1 else 0)
      && c.graded == (if !marked && !TooOld(t, now) then 1 else 0)
      && c.alerted == (if !marked && !TooOld(t, now) && !dryRun && f.sendOk then 1 else 0)
  {
  }

  /** Whatever a poll sends is in that day's log when the log can be written. */
  lemma EverySendIsLogged(s: State, j: Job, m: nat)
    requires !j.relog && j.logOk
    requires |s.sent| <= m < |Next(s, j).sent|
    ensures var t := Next(s, j); DayOf(j.now) in t.log && t.sent[m].id in t.log[DayOf(j.now)]
  {
    var w := World(if j.markersOk then Some(s.marks) else None, s.sent);
    var p, t, day := Poll(w, j.leagues, j.now, j.dryRun), Next(s, j), DayOf(j.now);
    RowsAreTheSends(w, j.leagues, j.now, j.dryRun);
    EverySendIsOfATrade(w, j.leagues, j.now, j.dryRun);
    assert OfLeagues(p.g.w.sent[m], j.leagues, j.now);
    EverySendHasItsRow(p.g.w.sent[|s.sent|..], m - |s.sent|);
    MergeGrows(PartitionAt(s.log, day), p.g.rows);
    var r := Row(day, t.sent[m].id, false, "");
    assert r in p.g.rows && r.id in Ids(p.g.rows);
  }

  // ---------------------------------------------------------------- dry runs

  lemma {:induction false} DryGrade(w: World, trades: seq<Trade>, faults: nat -> Faults, now: int)
    ensures var g := Grade(w, trades, faults, now, true); g.w == w && g.rows == []
  {
    if trades != [] { DryGrade(w, trades[..|trades| - 1], faults, now); }
  }

  lemma {:induction false} DryPoll(w: World, leagues: seq<LeagueTrades>, now: int)
    ensures var p := Poll(w, leagues, now, true); p.g.w == w && p.g.rows == []
  {
    if leagues != [] {
      var l := leagues[|leagues| - 1];
      DryPoll(w, leagues[..|leagues| - 1], now);
      if l.loads { DryGrade(w, l.trades, l.faults, now); }
    }
  }

  /** A dry run, poll or relog, sends nothing, marks nothing and logs nothing. */
  lemma DryRunChangesNothing(s: State, j: Job)
    requires j.dryRun
    ensures Next(s, j) == s
  {
    DryPoll(World(if j.markersOk then Some(s.marks) else None, s.sent), j.leagues, j.now);
  }

  /** A row once in the log is there for good, as it was. */
  lemma {:induction false} NoRowIsEverLost(s: State, jobs: seq<Job>, day: int, id: string)
    requires day in s.log && id in s.log[day]
    ensures var t := Run(s, jobs); day in t.log && id in t.log[day] && t.log[day][id] == s.log[day][id]
  {
    if jobs != [] {
      var init, j := jobs[..|jobs| - 1], jobs[|jobs| - 1];
      NoRowIsEverLost(s, init, day, id);
      var t := Run(s, init);
      var rows := if j.relog then RelogAll(t.marks, j.leagues, DayOf(j.now))
                  else Poll(World(if j.markersOk then Some(t.marks) else None, t.sent),
                            j.leagues, j.now, j.dryRun).g.rows;
      LoggedRows(t.log, DayOf(j.now), rows, j.logOk);
    }
  }

  // ---------------------------------------------------------------- relogging twice

  predicate Rebuilds(leagues: seq<LeagueTrades>, marks: map<string, string>, id: string) {
    exists k :: 0 <= k < |leagues| && RebuildsIn(leagues[k], marks, id)
  }

  predicate RebuildsIn(l: LeagueTrades, marks: map<string, string>, id: string) {
    l.loads && id in marks && exists i :: 0 <= i < |l.trades| && Offers(l, i, id)
  }

  predicate Offers(l: LeagueTrades, i: nat, id: string)
    requires i < |l.trades|
  {
    l.trades[i].id == id && l.faults(i).readOk
  }

  lemma {:induction false} RelogAllIds(marks: map<string, string>, leagues: seq<LeagueTrades>, day: int, id: string)
    ensures id in Ids(RelogAll(marks, leagues, day)) <==> Rebuilds(leagues, marks, id)
  {
    if leagues != [] {
      var n := |leagues| - 1;
      var init, l := leagues[..n], leagues[n];
      RelogAllIds(marks, init, day, id);
      assert Rebuilds(leagues, marks, id) <==> Rebuilds(init, marks, id) || RebuildsIn(l, marks, id) by {
        assert forall k :: 0 <= k < n ==> init[k] == leagues[k];
      }
      if l.loads { RelogIds(marks, l, day, id); }
      var a := RelogAll(marks, init, day);
      var b := if l.loads then Relog(marks, l.trades, (m: nat) => l.faults(m).readOk, day) else [];
      assert Ids(a + b) == Ids(a) + Ids(b) by { assert forall r :: r in a + b <==> r in a || r in b; }
    }
  }

  lemma RelogIds(marks: map<string, string>, l: LeagueTrades, day: int, id: string)
    requires l.loads
    ensures id in Ids(Relog(marks, l.trades, (m: nat) => l.faults(m).readOk, day)) <==> RebuildsIn(l, marks, id)
  {
    var read := (m: nat) => l.faults(m).readOk;
    var rows := Relog(marks, l.trades, read, day);
    if id in Ids(rows) {
      var r :| r in rows && r.id == id;
      RelogAre(marks, l.trades, read, day, r);
      var i :| 0 <= i < |l.trades| && read(i) && l.trades[i].id in marks
        && r == Row(day, l.trades[i].id, true, TrimSpace(marks[l.trades[i].id]));
      assert Offers(l, i, id);
    }
    if RebuildsIn(l, marks, id) {
      var i :| 0 <= i < |l.trades| && Offers(l, i, id);
      var r := Row(day, id, true, TrimSpace(marks[id]));
      RelogAre(marks, l.trades, read, day, r);
      assert r in rows && r.id == id;
    }
  }

  lemma {:induction false} MergingKnownIdsChangesNothing(m: map<string, Row>, rows: seq<Row>)
    requires Ids(rows) <= m.Keys
    ensures Merge(m, rows) == m
  {
    if rows != [] {
      var init, r := rows[..|rows| - 1], rows[|rows| - 1];
      assert rows == init + [r];
      IdsAppend(init, r);
      MergingKnownIdsChangesNothing(m, init);
    }
  }

  lemma RelogAgainLogs(log: map<int, map<string, Row>>, day: int, a: seq<Row>, b: seq<Row>, ok: bool)
    requires Ids(b) <= Ids(a)
    ensures Logged(Logged(log, day, a, true), day, b, ok) == Logged(log, day, a, true)
  {
    var t := Logged(log, day, a, true);
    if b != [] && ok {
      assert b[0].id in Ids(b);
      assert a == [] ==> Ids(a) == {};
      MergeGrows(PartitionAt(log, day), a);
      MergingKnownIdsChangesNothing(t[day], b);
    }
  }

  /** A second relog the same day changes nothing, if every trade it can rebuild was one the
      first could rebuild too. */
  lemma SecondRelogAddsNothing(s: State, first: Job, second: Job)
    requires first.relog && first.markersOk && !first.dryRun && first.logOk
    requires second.relog && DayOf(second.now) == DayOf(first.now)
    requires forall id :: Rebuilds(second.leagues, s.marks, id) ==> Rebuilds(first.leagues, s.marks, id)
    ensures Next(Next(s, first), second) == Next(s, first)
  {
    var day := DayOf(first.now);
    var a, b := RelogAll(s.marks, first.leagues, day), RelogAll(s.marks, second.leagues, day);
    forall id | id in Ids(b) ensures id in Ids(a) {
      RelogAllIds(s.marks, first.leagues, day, id);
      RelogAllIds(s.marks, second.leagues, day, id);
    }
    RelogAgainLogs(s.log, day, a, b, second.logOk);
  }

  // ---------------------------------------------------------------- which relogged rows were alerted

  /** Markers that work tell alerts from passed-over trades exactly. */
  ghost predicate Exact(marks: map<string, string>, sent: seq<Sent>) {
    forall id :: WasSent(sent, id) <==> id in marks && TrimSpace(marks[id]) != StaleNote
  }

  ghost predicate ReliableLeague(l: LeagueTrades) {
    forall i :: 0 <= i < |l.trades| ==> ReliableTrade(l.trades[i], l.faults(i))
  }

  /** The marker can be read and written, and no verdict reads like the stale note. */
  predicate ReliableTrade(t: Trade, f: Faults) { f.readOk && f.writeOk && TrimSpace(t.summary) != StaleNote }

  ghost predicate ReliableJobs(jobs: seq<Job>) {
    forall i :: 0 <= i < |jobs| ==> ReliableJob(jobs[i])
  }

  ghost predicate ReliableJob(j: Job) {
    !j.relog ==> j.markersOk && forall k :: 0 <= k < |j.leagues| ==> ReliableLeague(j.leagues[k])
  }

  /** Nothing marked before is marked differently after. */
  predicate KeepsMarks(a: map<string, string>, b: map<string, string>) {
    forall id :: id in a ==> id in b && b[id] == a[id]
  }

  ghost predicate ExactStep(v: World, w: World) {
    && v.marks.Some? && w.marks.Some? && Exact(w.marks.value, w.sent) && KeepsMarks(v.marks.value, w.marks.value)
    && (NoneTwice(v.sent) ==> NoneTwice(w.sent))
  }

  predicate NoneTwice(sent: seq<Sent>) { forall i, j :: 0 <= i < j < |sent| ==> sent[i].id != sent[j].id }

  lemma StillNoneTwice(sent: seq<Sent>, x: Sent)
    requires !WasSent(sent, x.id)
    ensures NoneTwice(sent) ==> NoneTwice(sent + [x])
  {
    assert forall i :: 0 <= i < |sent| ==> !IsSendOf(sent[i], x.id);
  }

  lemma SentGrows(sent: seq<Sent>, x: Sent)
    ensures forall id :: WasSent(sent + [x], id) <==> WasSent(sent, id) || id == x.id
  {
    var more := sent + [x];
    assert IsSendOf(more[|sent|], x.id);
    SendsStay(sent, more);
    forall id | WasSent(more, id) && id != x.id ensures WasSent(sent, id) {
      var k :| 0 <= k < |more| && IsSendOf(more[k], id);
      assert IsSendOf(sent[k], id);
    }
  }

  lemma GradeOneExact(w: World, t: Trade, f: Faults, now: int, dryRun: bool)
    requires w.marks.Some? && Exact(w.marks.value, w.sent) && ReliableTrade(t, f)
    ensures ExactStep(w, GradeOne(w, t, f, now, dryRun).w)
  {
    StaleNoteIsTrim();
    if t.id !in w.marks.value && !IsStale(t, now) && !dryRun && f.sendOk {
      var x := Sent(t.id, now, t.completed, t.summary);
      SentGrows(w.sent, x);
      StillNoneTwice(w.sent, x);
    }
  }

  lemma {:induction false} GradeExact(w: World, trades: seq<Trade>, faults: nat -> Faults, now: int, dryRun: bool)
    requires w.marks.Some? && Exact(w.marks.value, w.sent)
    requires forall i :: 0 <= i < |trades| ==> ReliableTrade(trades[i], faults(i))
    ensures ExactStep(w, Grade(w, trades, faults, now, dryRun).w)
  {
    if trades != [] {
      var n := |trades| - 1;
      GradeExact(w, trades[..n], faults, now, dryRun);
      GradeOneExact(Grade(w, trades[..n], faults, now, dryRun).w, trades[n], faults(n), now, dryRun);
    }
  }

  lemma {:induction false} PollExact(w: World, leagues: seq<LeagueTrades>, now: int, dryRun: bool)
    requires w.marks.Some? && Exact(w.marks.value, w.sent)
    requires forall k :: 0 <= k < |leagues| ==> ReliableLeague(leagues[k])
    ensures ExactStep(w, Poll(w, leagues, now, dryRun).g.w)
  {
    if leagues != [] {
      var init, l := leagues[..|leagues| - 1], leagues[|leagues| - 1];
      PollExact(w, init, now, dryRun);
      assert ReliableLeague(l);
      if l.loads { GradeExact(Poll(w, init, now, dryRun).g.w, l.trades, l.faults, now, dryRun); }
    }
  }

  /** A relogged row still says what its trade's marker says. */
  ghost predicate RelogsMatch(s: State) {
    forall d, id :: d in s.log && id in s.log[d] && s.log[d][id].regraded ==>
      MatchesMark(s.log[d][id], id, s.marks)
  }

  predicate MatchesMark(r: Row, id: string, marks: map<string, string>) {
    r.id == id && id in marks && r.original == TrimSpace(marks[id])
  }

  lemma LoggedMatch(s: State, t: State, day: int, rows: seq<Row>, ok: bool)
    requires RelogsMatch(s) && KeepsMarks(s.marks, t.marks) && t.log == Logged(s.log, day, rows, ok)
    requires forall r :: r in rows && r.regraded ==> MatchesMark(r, r.id, t.marks)
    ensures RelogsMatch(t)
  {
    LoggedRows(s.log, day, rows, ok);
    forall d, id | d in t.log && id in t.log[d] && t.log[d][id].regraded
      ensures MatchesMark(t.log[d][id], id, t.marks)
    {
      if d in s.log && id in s.log[d] { assert MatchesMark(s.log[d][id], id, s.marks); }
    }
  }

  lemma NextExact(s: State, j: Job)
    requires Valid(s) && Exact(s.marks, s.sent) && RelogsMatch(s) && ReliableJob(j)
    ensures Exact(Next(s, j).marks, Next(s, j).sent) && RelogsMatch(Next(s, j))
    ensures NoneTwice(s.sent) ==> NoneTwice(Next(s, j).sent)
  {
    var t, day := Next(s, j), DayOf(j.now);
    if j.relog {
      if t != s {
        var rows := RelogAll(s.marks, j.leagues, day);
        forall r | r in rows ensures MatchesMark(r, r.id, t.marks) { RelogAllFrom(s.marks, j.leagues, day, r); }
        LoggedMatch(s, t, day, rows, j.logOk);
      }
    } else {
      var w := World(Some(s.marks), s.sent);
      PollExact(w, j.leagues, j.now, j.dryRun);
      PollAccountsForEveryTrade(w, j.leagues, j.now, j.dryRun);
      LoggedMatch(s, t, day, Poll(w, j.leagues, j.now, j.dryRun).g.rows, j.logOk);
    }
  }

  lemma {:induction false} RunExact(jobs: seq<Job>)
    requires ReliableJobs(jobs)
    ensures var s := Run(Empty, jobs); Exact(s.marks, s.sent) && RelogsMatch(s) && NoneTwice(s.sent)
  {
    if jobs != [] {
      var init := jobs[..|jobs| - 1];
      RunExact(init);
      LogTellsWhatWasAlerted(init);
      assert ReliableJob(jobs[|jobs| - 1]);
      NextExact(Run(Empty, init), jobs[|jobs| - 1]);
    }
  }

  /** With markers that work, no trade is ever sent twice, whatever the polls, the relogs and
      the channel do. */
  lemma NoTradeIsSentTwice(jobs: seq<Job>)
    requires ReliableJobs(jobs)
    ensures NoneTwice(Run(Empty, jobs).sent)
  {
    RunExact(jobs);
  }

  /** With markers that work, a relogged row's trade was alerted exactly when the summary it
      carries over from the marker is not the stale note; sends may still fail in any way. */
  lemma RelogTellsAlertedFromStale(jobs: seq<Job>, day: int, id: string)
    requires ReliableJobs(jobs)
    requires var s := Run(Empty, jobs); day in s.log && id in s.log[day] && s.log[day][id].regraded
    ensures var s := Run(Empty, jobs);
      WasSent(s.sent, id) <==> s.log[day][id].original != StaleNote
  {
    RunExact(jobs);
    var s := Run(Empty, jobs);
    assert MatchesMark(s.log[day][id], id, s.marks);
  }

  // ---------------------------------------------------------------- stale trades do relog

  function Works(n: nat): Faults { Faults(true, true, true) }

  function OneTrade(t: Trade): seq<LeagueTrades> { [LeagueTrades("league", true, [t], Works)] }

  lemma StalePoll(t: Trade, now: int)
    requires IsStale(t, now)
    ensures Next(Empty, Job(false, now, OneTrade(t), true, false, true))
         == State(map[t.id := StaleNote], [], map[])
  {
    var w := World(Some(map[]), []);
    assert [t][..0] == [] && OneTrade(t)[..0] == [];
    var g := Graded(World(Some(map[t.id := StaleNote]), []), [], Counts(0, 0, 0, 1));
    assert GradeOne(w, t, Works(0), now, false) == g;
    assert Grade(w, [t], Works, now, false) == g;
    assert Poll(w, OneTrade(t), now, false).g == g;
  }

  lemma StaleRelog(t: Trade, day: int)
    ensures RelogAll(map[t.id := StaleNote], OneTrade(t), day) == [Row(day, t.id, true, StaleNote)]
  {
    StaleNoteIsTrim();
    var l := OneTrade(t)[0];
    assert Works(0).readOk && l.faults(0) == Works(0);
    RelogOne(map[t.id := StaleNote], t, (n: nat) => l.faults(n).readOk, day);
    assert OneTrade(t)[..0] == [];
  }

  lemma RelogOne(marks: map<string, string>, t: Trade, readOk: nat -> bool, day: int)
    requires readOk(0) && t.id in marks
    ensures Relog(marks, [t], readOk, day) == [Row(day, t.id, true, TrimSpace(marks[t.id]))]
  {
    assert [t][..0] == [];
  }

  /** Relogging is meant for trades that were alerted, but a trade passed over as stale has a
      marker too: it is rebuilt into the log although no alert ever went out. */
  lemma StaleTradesAreRelogged(t: Trade, now: int)
    requires IsStale(t, now)
    ensures var s := Run(Empty, [Job(false, now, OneTrade(t), true, false, true),
                                 Job(true, now, OneTrade(t), true, false, true)]);
      && s.sent == [] && DayOf(now) in s.log
      && s.log[DayOf(now)] == map[t.id := Row(DayOf(now), t.id, true, StaleNote)]
  {
    var poll, relog := Job(false, now, OneTrade(t), true, false, true), Job(true, now, OneTrade(t), true, false, true);
    StalePoll(t, now);
    StaleRelog(t, DayOf(now));
    var row := Row(DayOf(now), t.id, true, StaleNote);
    assert [row][..0] == [] && Merge(map[], [row]) == map[t.id := row];
    assert [poll, relog][..1] == [poll] && [poll][..0] == [];
    assert Run(Empty, [poll]) == Next(Empty, poll);
  }
}
