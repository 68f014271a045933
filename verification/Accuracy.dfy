/** internal/backtest: how far projections were off, overall and by position, over reals. */
module Accuracy {
  import opened Wrappers
  import opened Sorting

  /** One graded player-day; `diff` is actual minus projected. */
  datatype PlayerDay = PlayerDay(id: string, diff: real, bucket: string)

  function Abs(x: real): (r: real)
    ensures r >= 0.0 && -r <= x <= r && r * r == x * x
  {
    if x < 0.0 then -x else x
  }

  /** The total of a weight over player-days. */
  function Total(w: PlayerDay -> real, s: seq<PlayerDay>): real {
    if s == [] then 0.0 else Total(w, s[..|s| - 1]) + w(s[|s| - 1])
  }

  function Diff(p: PlayerDay): real { p.diff }

  function AbsDiff(p: PlayerDay): real { Abs(p.diff) }

  function SquaredDiff(p: PlayerDay): real { p.diff * p.diff }

  function One(p: PlayerDay): real { 1.0 }

  /** Mean absolute error, mean error, and the mean of the squares under the root. */
  datatype Stats = Stats(mae: real, bias: real, meanSquare: real)

  function StatsOf(s: seq<PlayerDay>): Stats {
    if s == [] then Stats(0.0, 0.0, 0.0)
    else
      var n := |s| as real;
      Stats(Total(AbsDiff, s) / n, Total(Diff, s) / n, Total(SquaredDiff, s) / n)
  }

  lemma TotalStep(w: PlayerDay -> real, s: seq<PlayerDay>, i: nat)
    requires i < |s|
    ensures Total(w, s[..i + 1]) == Total(w, s[..i]) + w(s[i])
  {
    assert s[..i + 1][..i] == s[..i];
  }

  method AccuracyStats(s: seq<PlayerDay>) returns (st: Stats)
    ensures st == StatsOf(s)
  {
    if s == [] { return Stats(0.0, 0.0, 0.0); }
    var absSum, biasSum, sqSum := 0.0, 0.0, 0.0;
    for i := 0 to |s|
      invariant absSum == Total(AbsDiff, s[..i])
      invariant biasSum == Total(Diff, s[..i])
      invariant sqSum == Total(SquaredDiff, s[..i])
    {
      TotalStep(AbsDiff, s, i);
      TotalStep(Diff, s, i);
      TotalStep(SquaredDiff, s, i);
      absSum := absSum + Abs(s[i].diff);
      biasSum := biasSum + s[i].diff;
      sqSum := sqSum + s[i].diff * s[i].diff;
    }
    assert s[..|s|] == s;
    var n := |s| as real;
    st := Stats(absSum / n, biasSum / n, sqSum / n);
  }

  // ---------------------------------------------------------------- the inequalities

  lemma {:induction false} SumWithinAbsSum(s: seq<PlayerDay>)
    ensures -Total(AbsDiff, s) <= Total(Diff, s) <= Total(AbsDiff, s)
  {
    if s != [] { SumWithinAbsSum(s[..|s| - 1]); }
  }

  lemma TwiceProduct(n: real, sum: real, squares: real, a: real)
    requires n > 0.0 && sum * sum <= n * squares
    ensures 2.0 * sum * a <= squares + n * a * a
  {
    var e := sum - n * a;
    assert e * e >= 0.0;
    assert e * e == sum * sum - 2.0 * n * sum * a + n * n * a * a;
    assert n * (2.0 * sum * a) <= n * (squares + n * a * a) by {
      assert n * (squares + n * a * a) == n * squares + n * n * a * a;
    }
    Cancel(n, 2.0 * sum * a, squares + n * a * a);
  }

  lemma Cancel(n: real, x: real, y: real)
    requires n > 0.0 && n * x <= n * y
    ensures x <= y
  {
    assert x > y ==> n * x > n * y;
  }

  lemma OneMoreTerm(n: real, sum: real, squares: real, a: real)
    requires n >= 0.0 && squares >= 0.0 && sum * sum <= n * squares
    ensures (sum + a) * (sum + a) <= (n + 1.0) * (squares + a * a)
  {
    if n == 0.0 {
      assert sum > 0.0 ==> sum * sum > 0.0;
      assert sum < 0.0 ==> sum * sum > 0.0;
    } else {
      TwiceProduct(n, sum, squares, a);
      assert (sum + a) * (sum + a) == sum * sum + 2.0 * sum * a + a * a;
      assert (n + 1.0) * (squares + a * a) == n * squares + n * a * a + squares + a * a;
    }
  }

  /** The Cauchy-Schwarz inequality for the errors of any list of player-days. */
  lemma {:induction false} SquareOfSum(s: seq<PlayerDay>)
    ensures Total(SquaredDiff, s) >= 0.0 && Total(AbsDiff, s) >= 0.0
    ensures Total(AbsDiff, s) * Total(AbsDiff, s) <= |s| as real * Total(SquaredDiff, s)
  {
    if s != [] {
      var init, a := s[..|s| - 1], Abs(s[|s| - 1].diff);
      SquareOfSum(init);
      OneMoreTerm(|init| as real, Total(AbsDiff, init), Total(SquaredDiff, init), a);
    }
  }

  lemma DivideSquares(n: real, sum: real, squares: real)
    requires n > 0.0 && sum * sum <= n * squares
    ensures (sum / n) * (sum / n) <= squares / n
  {
    var q := sum / n;
    assert sum == q * n;
    assert n * (n * (q * q)) <= n * squares by { assert n * (n * (q * q)) == sum * sum; }
    Cancel(n, n * (q * q), squares);
    assert n * (q * q) <= n * (squares / n);
    Cancel(n, q * q, squares / n);
  }

  lemma PositiveProduct(x: real, y: real)
    requires x > 0.0 && y > 0.0
    ensures x * y > 0.0
  {
  }

  lemma RootOrder(x: real, r: real)
    requires 0.0 <= x && 0.0 <= r && x * x <= r * r
    ensures x <= r
  {
    assert x * x - r * r == (x - r) * (x + r);
    if x > r { PositiveProduct(x - r, x + r); }
  }

  /** The bias never exceeds the mean error, and the mean error never exceeds the root of the
      mean square, whichever non-negative root the square root function returns. */
  lemma BiasWithinMaeWithinRmse(s: seq<PlayerDay>, rmse: real)
    requires rmse >= 0.0 && rmse * rmse == StatsOf(s).meanSquare
    ensures var st := StatsOf(s); Abs(st.bias) <= st.mae <= rmse
  {
    var st := StatsOf(s);
    if s != [] {
      var n := |s| as real;
      SumWithinAbsSum(s);
      SquareOfSum(s);
      DivideOrder(Total(Diff, s), Total(AbsDiff, s), n);
      DivideOrder(-Total(AbsDiff, s), Total(Diff, s), n);
      DivideOrder(0.0, Total(AbsDiff, s), n);
      DivideSquares(n, Total(AbsDiff, s), Total(SquaredDiff, s));
      RootOrder(st.mae, rmse);
    } else {
      RootOrder(0.0, rmse);
    }
  }

  lemma DivideOrder(x: real, y: real, n: real)
    requires n > 0.0 && x <= y
    ensures x / n <= y / n && (-x) / n == -(x / n) && 0.0 / n == 0.0
  {
    var a, b := x / n, y / n;
    assert n * a == x && n * b == y;
    Cancel(n, a, b);
  }

  // ---------------------------------------------------------------- by position

  const BucketOrder: seq<string> := ["C", "INF", "OF", "UT", "SP", "RP"]

  const INFIELD: set<string> := {"002", "003", "004", "005", "008"}

  /** `positions.HitterBucket`: the scarcest role a hitter is eligible for. */
  function HitterBucket(eligibility: seq<string>): string {
    if "001" in eligibility then "C"
    else if exists i :: 0 <= i < |eligibility| && eligibility[i] in INFIELD then "INF"
    else if "012" in eligibility then "OF"
    else "UT"
  }

  function PositionBucket(isPitcher: bool, role: string, eligibility: seq<string>): string {
    if isPitcher then (if role == "SP" then "SP" else "RP") else HitterBucket(eligibility)
  }

  /** No player falls outside the reported buckets, or into another kind's. */
  lemma EveryBucketIsReported(isPitcher: bool, role: string, eligibility: seq<string>)
    ensures PositionBucket(isPitcher, role, eligibility) in BucketOrder
    ensures isPitcher <==> PositionBucket(isPitcher, role, eligibility) in BucketOrder[4..]
  {
    assert BucketOrder[0] == "C" && BucketOrder[1] == "INF" && BucketOrder[2] == "OF" && BucketOrder[3] == "UT";
    assert BucketOrder[4] == "SP" && BucketOrder[5] == "RP";
    assert BucketOrder[4..] == ["SP", "RP"];
  }

  /** The buckets, and which wins: a pitcher by his role, a hitter by the scarcest place he is
      eligible for, catcher before infield before outfield, and the rest at utility. */
  lemma BucketIsExactly(isPitcher: bool, role: string, eligibility: seq<string>)
    ensures var b := PositionBucket(isPitcher, role, eligibility);
      var inf := "002" in eligibility || "003" in eligibility || "004" in eligibility
              || "005" in eligibility || "008" in eligibility;
      && (b == "SP" <==> isPitcher && role == "SP")
      && (b == "RP" <==> isPitcher && role != "SP")
      && (b == "C" <==> !isPitcher && "001" in eligibility)
      && (b == "INF" <==> !isPitcher && "001" !in eligibility && inf)
      && (b == "OF" <==> !isPitcher && "001" !in eligibility && !inf && "012" in eligibility)
      && (b == "UT" <==> !isPitcher && "001" !in eligibility && !inf && "012" !in eligibility)
  {
    assert INFIELD == {"002", "003", "004", "005", "008"};
    assert "OF"[0] != "UT"[0] && "SP"[0] != "RP"[0] && "SP"[0] == 'S' && "RP"[0] == 'R';
    if !isPitcher && exists i :: 0 <= i < |eligibility| && eligibility[i] in INFIELD {
      var i :| 0 <= i < |eligibility| && eligibility[i] in INFIELD;
      assert eligibility[i] in eligibility;
    }
    forall x | x in eligibility && x in INFIELD
      ensures exists i :: 0 <= i < |eligibility| && eligibility[i] in INFIELD
    {
      var i :| 0 <= i < |eligibility| && eligibility[i] == x;
    }
  }

  datatype Line = Line(bucket: string, n: nat, mae: real, bias: real)

  function InBucket(b: string, all: seq<PlayerDay>): seq<PlayerDay> {
    Filter((p: PlayerDay) => p.bucket == b, all)
  }

  function LineFor(b: string, all: seq<PlayerDay>): Line {
    var ps := InBucket(b, all);
    Line(b, |ps|, StatsOf(ps).mae, StatsOf(ps).bias)
  }

  function LinesFor(order: seq<string>, all: seq<PlayerDay>): seq<Line> {
    if order == [] then []
    else
      var b := order[|order| - 1];
      LinesFor(order[..|order| - 1], all) + if InBucket(b, all) == [] then [] else [LineFor(b, all)]
  }

  method GroupByBucket(all: seq<PlayerDay>) returns (byBucket: map<string, seq<PlayerDay>>)
    ensures forall b :: (if b in byBucket then byBucket[b] else []) == InBucket(b, all)
  {
    byBucket := map[];
    for i := 0 to |all|
      invariant forall b :: (if b in byBucket then byBucket[b] else []) == InBucket(b, all[..i])
    {
      var b := all[i].bucket;
      var had := if b in byBucket then byBucket[b] else [];
      forall c ensures InBucket(c, all[..i + 1]) == InBucket(c, all[..i]) + if c == b then [all[i]] else [] {
        FilterStep((p: PlayerDay) => p.bucket == c, all, i);
      }
      byBucket := byBucket[b := had + [all[i]]];
    }
    assert all[..|all|] == all;
  }

  method LinesInOrder(order: seq<string>, all: seq<PlayerDay>) returns (out: seq<Line>)
    ensures out == LinesFor(order, all)
  {
    var byBucket := GroupByBucket(all);
    out := [];
    for k := 0 to |order|
      invariant out == LinesFor(order[..k], all)
    {
      var b := order[k];
      assert order[..k + 1][..k] == order[..k];
      var ps := if b in byBucket then byBucket[b] else [];
      if ps == [] { continue; }
      var st := AccuracyStats(ps);
      out := out + [Line(b, |ps|, st.mae, st.bias)];
    }
    assert order[..|order|] == order;
  }

  method AccuracyByPosition(all: seq<PlayerDay>) returns (out: seq<Line>)
    ensures out == LinesFor(BucketOrder, all)
  {
    out := LinesInOrder(BucketOrder, all);
  }

  predicate HasPlayers(b: string, all: seq<PlayerDay>) {
    exists i :: 0 <= i < |all| && all[i].bucket == b
  }

  lemma InBucketIsEmpty(b: string, all: seq<PlayerDay>)
    ensures InBucket(b, all) == [] <==> !HasPlayers(b, all)
  {
    if HasPlayers(b, all) {
      var i :| 0 <= i < |all| && all[i].bucket == b;
      FilterKeeps((p: PlayerDay) => p.bucket == b, all, all[i]);
    }
    if InBucket(b, all) != [] {
      var p := InBucket(b, all)[0];
      FilterKeeps((q: PlayerDay) => q.bucket == b, all, p);
      var i :| 0 <= i < |all| && all[i] == p;
      assert all[i].bucket == b;
    }
  }

  function BucketsOf(lines: seq<Line>): seq<string> {
    if lines == [] then [] else BucketsOf(lines[..|lines| - 1]) + [lines[|lines| - 1].bucket]
  }

  /** The report has a line for each bucket some player-day is in, no other, in display order,
      and none of them is empty. */
  lemma {:induction false} LinesAreTheBucketsWithPlayers(order: seq<string>, all: seq<PlayerDay>)
    ensures BucketsOf(LinesFor(order, all)) == Filter((b: string) => HasPlayers(b, all), order)
    ensures forall i :: 0 <= i < |LinesFor(order, all)| ==> LinesFor(order, all)[i].n > 0
  {
    if order != [] {
      var init, b := order[..|order| - 1], order[|order| - 1];
      LinesAreTheBucketsWithPlayers(init, all);
      InBucketIsEmpty(b, all);
      var lines := LinesFor(init, all);
      assert (lines + [LineFor(b, all)])[..|lines|] == lines;
      assert lines + [] == lines;
    }
  }

  function LineTotal(w: Line -> real, lines: seq<Line>): real {
    if lines == [] then 0.0 else LineTotal(w, lines[..|lines| - 1]) + w(lines[|lines| - 1])
  }

  function CountOf(l: Line): real { l.n as real }
  function AbsOf(l: Line): real { l.n as real * l.mae }
  function BiasOf(l: Line): real { l.n as real * l.bias }

  /** Splitting a filter in two splits its total. */
  lemma {:induction false} TotalSplit(w: PlayerDay -> real, p: PlayerDay -> bool, q: PlayerDay -> bool,
                                      r: PlayerDay -> bool, s: seq<PlayerDay>)
    requires forall x :: x in s ==> (p(x) <==> (q(x) || r(x))) && !(q(x) && r(x))
    ensures Total(w, Filter(p, s)) == Total(w, Filter(q, s)) + Total(w, Filter(r, s))
  {
    if s != [] {
      var init, last := s[..|s| - 1], s[|s| - 1];
      assert last in s;
      TotalSplit(w, p, q, r, init);
      TotalAppend(w, Filter(p, init), last, p(last));
      TotalAppend(w, Filter(q, init), last, q(last));
      TotalAppend(w, Filter(r, init), last, r(last));
    }
  }

  lemma TotalAppend(w: PlayerDay -> real, s: seq<PlayerDay>, x: PlayerDay, yes: bool)
    ensures Total(w, s + if yes then [x] else []) == Total(w, s) + if yes then w(x) else 0.0
  {
    if yes { assert (s + [x])[..|s|] == s; } else { assert s + [] == s; }
  }

  lemma {:induction false} CountIsTotal(s: seq<PlayerDay>)
    ensures Total(One, s) == |s| as real
  {
    if s != [] { CountIsTotal(s[..|s| - 1]); }
  }

  lemma LineAddsUp(b: string, all: seq<PlayerDay>)
    ensures var l, ps := LineFor(b, all), InBucket(b, all);
      && CountOf(l) == Total(One, ps) && AbsOf(l) == Total(AbsDiff, ps) && BiasOf(l) == Total(Diff, ps)
  {
    CountIsTotal(InBucket(b, all));
  }

  /** One more bucket: the reported lines carry the totals of the buckets so far. */
  lemma {:induction false} LinesAddUp(order: seq<string>, all: seq<PlayerDay>)
    requires forall i, j :: 0 <= i < j < |order| ==> order[i] != order[j]
    ensures var lines, ps := LinesFor(order, all), Filter((p: PlayerDay) => p.bucket in order, all);
      && LineTotal(CountOf, lines) == Total(One, ps)
      && LineTotal(AbsOf, lines) == Total(AbsDiff, ps)
      && LineTotal(BiasOf, lines) == Total(Diff, ps)
  {
    if order == [] {
      FilterNone((p: PlayerDay) => p.bucket in order, all);
    } else {
      var init, b := order[..|order| - 1], order[|order| - 1];
      LinesAddUp(init, all);
      assert order == init + [b] && b !in init;
      LineAddsUp(b, all);
      SplitBucket(One, init, b, order, all);
      SplitBucket(AbsDiff, init, b, order, all);
      SplitBucket(Diff, init, b, order, all);
      if InBucket(b, all) != [] { assert LinesFor(order, all)[..|LinesFor(init, all)|] == LinesFor(init, all); }
      else { assert LinesFor(init, all) + [] == LinesFor(init, all); }
    }
  }

  lemma SplitBucket(w: PlayerDay -> real, init: seq<string>, b: string, order: seq<string>, all: seq<PlayerDay>)
    requires order == init + [b] && b !in init
    ensures Total(w, Filter((p: PlayerDay) => p.bucket in order, all)) ==
      Total(w, Filter((p: PlayerDay) => p.bucket in init, all)) + Total(w, InBucket(b, all))
  {
    TotalSplit(w, (p: PlayerDay) => p.bucket in order, (p: PlayerDay) => p.bucket in init,
               (p: PlayerDay) => p.bucket == b, all);
  }

  lemma Recombine(order: seq<string>, all: seq<PlayerDay>)
    requires forall i, j :: 0 <= i < j < |order| ==> order[i] != order[j]
    requires forall p :: p in all ==> p.bucket in order
    ensures var lines, st, n := LinesFor(order, all), StatsOf(all), |all| as real;
      && LineTotal(CountOf, lines) == n
      && LineTotal(AbsOf, lines) == n * st.mae
      && LineTotal(BiasOf, lines) == n * st.bias
  {
    LinesAddUp(order, all);
    FilterAll((p: PlayerDay) => p.bucket in order, all);
    CountIsTotal(all);
    StatsTimesCount(all);
  }

  lemma StatsTimesCount(all: seq<PlayerDay>)
    ensures |all| as real * StatsOf(all).mae == Total(AbsDiff, all)
    ensures |all| as real * StatsOf(all).bias == Total(Diff, all)
  {
    if all != [] {
      var n := |all| as real;
      DivideThenMultiply(n, Total(AbsDiff, all));
      DivideThenMultiply(n, Total(Diff, all));
    }
  }

  lemma DivideThenMultiply(n: real, t: real)
    requires n > 0.0
    ensures n * (t / n) == t
  {
  }

  /** The per-position figures recombine to the overall ones: counts add up, and weighted by
      count so do the mean error and the bias, because every player-day is in a bucket. */
  lemma BucketsRecombine(all: seq<PlayerDay>)
    requires forall p :: p in all ==> p.bucket in BucketOrder
    ensures var lines, st, n := LinesFor(BucketOrder, all), StatsOf(all), |all| as real;
      && LineTotal(CountOf, lines) == n
      && LineTotal(AbsOf, lines) == n * st.mae
      && LineTotal(BiasOf, lines) == n * st.bias
  {
    BucketsDiffer();
    Recombine(BucketOrder, all);
  }

  /** Who a player-day belongs to, as the bucket is worked out from: pitcher or not, the
      pitcher's role, and the positions he is eligible at. */
  datatype Role = Role(isPitcher: bool, role: string, eligibility: seq<string>)

  /** So they do recombine for every set of player-days the analysis builds: each takes its
      bucket from its player, and no player's bucket is missing from the report. */
  lemma {:induction false} EveryAnalysisRecombines(all: seq<PlayerDay>, roles: seq<Role>)
    requires |roles| == |all|
    requires forall i :: 0 <= i < |all| ==>
      all[i].bucket == PositionBucket(roles[i].isPitcher, roles[i].role, roles[i].eligibility)
    ensures var lines, st, n := LinesFor(BucketOrder, all), StatsOf(all), |all| as real;
      && LineTotal(CountOf, lines) == n
      && LineTotal(AbsOf, lines) == n * st.mae
      && LineTotal(BiasOf, lines) == n * st.bias
  {
    forall p | p in all ensures p.bucket in BucketOrder {
      var i :| 0 <= i < |all| && all[i] == p;
      EveryBucketIsReported(roles[i].isPitcher, roles[i].role, roles[i].eligibility);
    }
    BucketsRecombine(all);
  }

  lemma BucketsDiffer()
    ensures forall i, j :: 0 <= i < j < |BucketOrder| ==> BucketOrder[i] != BucketOrder[j]
  {
    assert BucketOrder[0] == "C" && BucketOrder[1] == "INF" && BucketOrder[2] == "OF";
    assert BucketOrder[3] == "UT" && BucketOrder[4] == "SP" && BucketOrder[5] == "RP";
    assert "OF"[0] != "UT"[0] && "SP"[0] != "RP"[0];
  }
}
