/** internal/backtest: what a lineup cost, the players most missed on the bench, and the
    projections that missed by most. */
module TopLists {
  import opened Sorting
  import opened Text
  import opened Accuracy

  // ---------------------------------------------------------------- the day's gap

  const Eps := 0.000000001

  datatype Played = Played(id: string, pts: real, active: bool, hadGame: bool)

  datatype DayResult = DayResult(actual: real, optimal: real, gap: real, started: seq<Played>)

  predicate Starts(p: Played) { p.active && p.hadGame }

  function Points(s: seq<Played>): real {
    if s == [] then 0.0 else Points(s[..|s| - 1]) + s[|s| - 1].pts
  }

  /** The optimum a day is graded against is never below what was actually scored by more
      than the guard. */
  function GuardOptimal(actual: real, optimal: real): (r: real)
    ensures r >= actual - 0.000000001 && (r == optimal || r == actual)
    ensures r >= optimal && (optimal >= actual - 0.000000001 <==> r == optimal)
  {
    if optimal >= actual - Eps then optimal else actual
  }

  method RunLineupAnalysis(days: seq<seq<Played>>, optimum: nat -> real) returns (results: seq<DayResult>)
    ensures |results| == |days|
    ensures forall i :: 0 <= i < |days| ==>
      && results[i].started == Filter(Starts, days[i])
      && (forall p :: p in results[i].started <==> p in days[i] && p.active && p.hadGame)
      && results[i].actual == Points(Filter(Starts, days[i]))
      && results[i].optimal == GuardOptimal(results[i].actual, optimum(i))
      && results[i].gap == results[i].actual - results[i].optimal <= Eps
  {
    results := [];
    for i := 0 to |days|
      invariant |results| == i
      invariant forall k :: 0 <= k < i ==>
        && results[k].started == Filter(Starts, days[k])
        && (forall p :: p in results[k].started <==> p in days[k] && p.active && p.hadGame)
        && results[k].actual == Points(Filter(Starts, days[k]))
        && results[k].optimal == GuardOptimal(results[k].actual, optimum(k))
        && results[k].gap == results[k].actual - results[k].optimal <= Eps
    {
      var day := days[i];
      var actual, started := 0.0, [];
      for j := 0 to |day|
        invariant started == Filter(Starts, day[..j]) && actual == Points(started)
      {
        FilterStep(Starts, day, j);
        if day[j].active && day[j].hadGame {
          assert (started + [day[j]])[..|started|] == started;
          actual := actual + day[j].pts;
          started := started + [day[j]];
        }
      }
      assert day[..|day|] == day;
      forall p ensures p in started <==> p in day && p.active && p.hadGame { FilterKeeps(Starts, day, p); }
      var optimal := GuardOptimal(actual, optimum(i));
      results := results + [DayResult(actual, optimal, actual - optimal, started)];
    }
  }

  // ---------------------------------------------------------------- most missed on the bench

  datatype Benched = Benched(id: string, name: string, pts: real)

  /** What a player would have been worth over the window: every bench day, gains and losses. */
  function Net(id: string, all: seq<Benched>): real {
    if all == [] then 0.0
    else
      var last := all[|all| - 1];
      Net(id, all[..|all| - 1]) + if last.id == id then last.pts else 0.0
  }

  function Flatten(days: seq<seq<Benched>>): seq<Benched> {
    if days == [] then [] else Flatten(days[..|days| - 1]) + days[|days| - 1]
  }

  predicate Seen(id: string, all: seq<Benched>) { exists i :: 0 <= i < |all| && all[i].id == id }

  /** Most points first, then by id. */
  predicate Ahead(a: Benched, b: Benched) { a.pts > b.pts || (a.pts == b.pts && LexLeq(a.id, b.id)) }

  /** The running totals of what has been seen. */
  ghost predicate Tallies(cum: map<string, Benched>, all: seq<Benched>) {
    && (forall id :: id in cum <==> Seen(id, all))
    && (forall id :: id in cum ==> cum[id].id == id && cum[id].pts == Net(id, all))
  }

  lemma {:induction false} NetOfUnseen(id: string, all: seq<Benched>)
    requires !Seen(id, all)
    ensures Net(id, all) == 0.0
  {
    if all != [] {
      var init := all[..|all| - 1];
      assert forall i :: 0 <= i < |init| ==> init[i] == all[i];
      assert all[|all| - 1].id != id;
      NetOfUnseen(id, init);
    }
  }

  lemma TallyOne(cum: map<string, Benched>, all: seq<Benched>, b: Benched)
    requires Tallies(cum, all)
    ensures Tallies(cum[b.id := if b.id in cum then cum[b.id].(pts := cum[b.id].pts + b.pts) else b], all + [b])
  {
    var more := all + [b];
    assert more[..|all|] == all && more[|all|] == b;
    assert forall i :: 0 <= i < |all| ==> more[i] == all[i];
    forall id ensures Seen(id, more) <==> Seen(id, all) || id == b.id {
      if Seen(id, all) { var i :| 0 <= i < |all| && all[i].id == id; assert more[i].id == id; }
    }
    if b.id !in cum { NetOfUnseen(b.id, all); }
  }

  /** The same list as the totals, each player once, in no particular order. */
  ghost predicate Positives(out: seq<Benched>, all: seq<Benched>) {
    && (forall i, j :: 0 <= i < j < |out| ==> out[i].id != out[j].id)
    && (forall k :: 0 <= k < |out| ==> Seen(out[k].id, all) && out[k].pts == Net(out[k].id, all) > 0.0)
    && (forall id :: Seen(id, all) && Net(id, all) > 0.0 ==> Lists(out, id))
  }

  predicate Lists(out: seq<Benched>, id: string) { exists k :: 0 <= k < |out| && out[k].id == id }

  method Accumulate(days: seq<seq<Benched>>) returns (cum: map<string, Benched>)
    ensures Tallies(cum, Flatten(days))
  {
    cum := map[];
    for i := 0 to |days|
      invariant Tallies(cum, Flatten(days[..i]))
    {
      assert days[..i + 1][..i] == days[..i];
      var day := days[i];
      ghost var before := Flatten(days[..i]);
      assert before + day[..0] == before;
      for j := 0 to |day|
        invariant Tallies(cum, before + day[..j])
      {
        var b := day[j];
        TallyOne(cum, before + day[..j], b);
        assert before + day[..j] + [b] == before + day[..j + 1];
        cum := cum[b.id := if b.id in cum then cum[b.id].(pts := cum[b.id].pts + b.pts) else b];
      }
      assert day[..|day|] == day;
    }
    assert days[..|days|] == days;
  }

  method PositivesOf(cum: map<string, Benched>, ghost all: seq<Benched>) returns (out: seq<Benched>)
    requires Tallies(cum, all)
    ensures Positives(out, all)
  {
    out := [];
    var left := cum.Keys;
    while left != {}
      invariant left <= cum.Keys
      invariant forall i, j :: 0 <= i < j < |out| ==> out[i].id != out[j].id
      invariant forall b :: b in out ==> b.id in cum && b.id !in left && b == cum[b.id] && b.pts > 0.0
      invariant forall id :: id in cum && id !in left && cum[id].pts > 0.0 ==> cum[id] in out
      decreases |left|
    {
      NonEmpty(left);
      var id :| id in left;
      left := left - {id};
      if cum[id].pts <= 0.0 { continue; }
      out := out + [cum[id]];
    }
    AllTallied(cum, all, out);
  }

  lemma AllTallied(cum: map<string, Benched>, all: seq<Benched>, out: seq<Benched>)
    requires Tallies(cum, all)
    requires forall i, j :: 0 <= i < j < |out| ==> out[i].id != out[j].id
    requires forall b :: b in out ==> b.id in cum && b == cum[b.id] && b.pts > 0.0
    requires forall id :: id in cum && cum[id].pts > 0.0 ==> cum[id] in out
    ensures Positives(out, all)
  {
    forall k | 0 <= k < |out| ensures Seen(out[k].id, all) && out[k].pts == Net(out[k].id, all) > 0.0 {
      assert out[k] in out;
    }
    forall id | Seen(id, all) && Net(id, all) > 0.0 ensures Lists(out, id) {
      var k :| 0 <= k < |out| && out[k] == cum[id];
    }
  }

  lemma AheadIsTotal()
    ensures TotalPreorder(Ahead)
  {
    LexLeqIsTotalOrder();
  }

  const TopBench := 10

  /** The players who really cost points by sitting: distinct, with a net gain over the whole
      window, best first, and nobody left out who ranks ahead of anyone listed. */
  method TopBenchCumulative(days: seq<seq<Benched>>) returns (out: seq<Benched>)
    ensures |out| <= 10 && Sorted(Ahead, out)
    ensures forall i, j :: 0 <= i < j < |out| ==> out[i].id != out[j].id
    ensures forall k :: 0 <= k < |out| ==>
      Seen(out[k].id, Flatten(days)) && out[k].pts == Net(out[k].id, Flatten(days)) > 0.0
    ensures forall id :: Seen(id, Flatten(days)) && Net(id, Flatten(days)) > 0.0 && !Lists(out, id) ==>
      |out| == 10 && forall k :: 0 <= k < |out| ==>
        out[k].pts > Net(id, Flatten(days)) || (out[k].pts == Net(id, Flatten(days)) && LexLeq(out[k].id, id))
  {
    var cum := Accumulate(days);
    ghost var all := Flatten(days);
    out := PositivesOf(cum, all);
    AheadIsTotal();
    SortSorts(Ahead, out);
    SortKeepsPositives(out, Sort(Ahead, out), all);
    out := Sort(Ahead, out);
    if |out| > TopBench {
      CutKeepsTheBest(out, all);
      out := out[..TopBench];
    }
  }

  lemma SortKeepsPositives(a: seq<Benched>, b: seq<Benched>, all: seq<Benched>)
    requires Positives(a, all) && multiset(a) == multiset(b)
    ensures Positives(b, all)
  {
    SameElements(a, b);
    StillDifferent(a, b);
    forall k | 0 <= k < |b| ensures Seen(b[k].id, all) && b[k].pts == Net(b[k].id, all) > 0.0 {
      assert b[k] in a;
    }
    forall i, j | 0 <= i < j < |b| ensures b[i].id != b[j].id {
      assert b[i] in a && b[j] in a;
    }
    forall id | Seen(id, all) && Net(id, all) > 0.0 ensures Lists(b, id) {
      var k :| 0 <= k < |a| && a[k].id == id;
      assert a[k] in b;
    }
  }

  lemma CutKeepsTheBest(out: seq<Benched>, all: seq<Benched>)
    requires Positives(out, all) && Sorted(Ahead, out) && |out| > TopBench
    ensures forall id :: Seen(id, all) && Net(id, all) > 0.0 && !Lists(out[..TopBench], id) ==>
      forall k :: 0 <= k < TopBench ==>
        out[k].pts > Net(id, all) || (out[k].pts == Net(id, all) && LexLeq(out[k].id, id))
  {
    forall id | Seen(id, all) && Net(id, all) > 0.0 && !Lists(out[..TopBench], id)
      ensures forall k :: 0 <= k < TopBench ==>
        out[k].pts > Net(id, all) || (out[k].pts == Net(id, all) && LexLeq(out[k].id, id))
    {
      var m :| 0 <= m < |out| && out[m].id == id;
      assert forall k :: 0 <= k < TopBench ==> out[..TopBench][k] == out[k];
      assert forall k :: 0 <= k < TopBench ==> Ahead(out[k], out[m]);
    }
  }

  // ---------------------------------------------------------------- the biggest misses

  predicate BiggerMiss(a: PlayerDay, b: PlayerDay) {
    if Abs(a.diff) != Abs(b.diff) then Abs(a.diff) > Abs(b.diff) else LexLeq(a.id, b.id)
  }

  predicate MoreOverProjected(a: PlayerDay, b: PlayerDay) {
    if a.diff != b.diff then a.diff < b.diff else LexLeq(a.id, b.id)
  }

  lemma MissOrdersAreTotal()
    ensures TotalPreorder(BiggerMiss) && TotalPreorder(MoreOverProjected)
  {
    LexLeqIsTotalOrder();
  }

  /** The `n` largest misses by size, equal sizes by player id, shown from most over-projected
      to most under-projected: everything listed ranks before everything left out. */
  method TopSignedMisses(players: seq<PlayerDay>, n: nat) returns (out: seq<PlayerDay>)
    ensures |out| == if |players| < n then |players| else n
    ensures multiset(out) <= multiset(players)
    ensures forall i, j :: 0 <= i < j < |out| ==>
      out[i].diff <= out[j].diff && (out[i].diff == out[j].diff ==> LexLeq(out[i].id, out[j].id))
    ensures forall x, y :: x in out && y in multiset(players) - multiset(out) ==>
      Abs(y.diff) <= Abs(x.diff) && (Abs(y.diff) == Abs(x.diff) ==> LexLeq(x.id, y.id))
  {
    MissOrdersAreTotal();
    SortSorts(BiggerMiss, players);
    var sorted := Sort(BiggerMiss, players);
    SameElements(players, sorted);
    var top := if |sorted| > n then sorted[..n] else sorted;
    SplitMisses(players, sorted, |top|);
    SortSorts(MoreOverProjected, top);
    out := Sort(MoreOverProjected, top);
    SameElements(top, out);
    MissesAreRanked(out, multiset(players) - multiset(out));
  }

  /** What the two orders say. */
  lemma MissesAreRanked(out: seq<PlayerDay>, rest: multiset<PlayerDay>)
    requires Sorted(MoreOverProjected, out)
    requires forall x, y :: x in out && y in rest ==> BiggerMiss(x, y)
    ensures forall i, j :: 0 <= i < j < |out| ==>
      out[i].diff <= out[j].diff && (out[i].diff == out[j].diff ==> LexLeq(out[i].id, out[j].id))
    ensures forall x, y :: x in out && y in rest ==>
      Abs(y.diff) <= Abs(x.diff) && (Abs(y.diff) == Abs(x.diff) ==> LexLeq(x.id, y.id))
  {
    forall x, y | x in out && y in rest
      ensures Abs(y.diff) <= Abs(x.diff) && (Abs(y.diff) == Abs(x.diff) ==> LexLeq(x.id, y.id))
    {
      assert BiggerMiss(x, y);
    }
    forall i, j | 0 <= i < j < |out|
      ensures out[i].diff <= out[j].diff && (out[i].diff == out[j].diff ==> LexLeq(out[i].id, out[j].id))
    {
      assert MoreOverProjected(out[i], out[j]);
    }
  }

  lemma SplitMisses(players: seq<PlayerDay>, sorted: seq<PlayerDay>, n: nat)
    requires n <= |sorted| && SortedPerm(BiggerMiss, players, sorted)
    ensures multiset(sorted[..n]) <= multiset(players)
    ensures forall x, y :: x in sorted[..n] && y in multiset(players) - multiset(sorted[..n]) ==>
      BiggerMiss(x, y)
  {
    assert sorted == sorted[..n] + sorted[n..];
    assert multiset(players) - multiset(sorted[..n]) == multiset(sorted[n..]);
    forall x, y | x in sorted[..n] && y in multiset(sorted[n..]) ensures BiggerMiss(x, y) {
      var i :| 0 <= i < n && sorted[..n][i] == x;
      assert y in sorted[n..];
      var j :| 0 <= j < |sorted| - n && sorted[n..][j] == y;
      assert BiggerMiss(sorted[i], sorted[n + j]);
    }
  }
}
