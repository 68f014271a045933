/**
 cmd/grade.go: the window of a default grade run is derived from the newest day already
 stored, so a run that was missed or refused is made up for by the next one.

 Days are integers and 0 is Go's zero time, before which no date parses.
 */
module GradeWindow {
  import opened Wrappers

  type Day = int

  /** What the store says it covers; `latest` is 0 when it holds no graded day. */
  datatype Coverage = Unreadable | Covers(latest: Day)

  /** The run's range, and the range it printed as capped and not re-graded. */
  datatype Window = Window(start: Day, end: Day, capped: Option<(Day, Day)>)

  function Max(a: int, b: int): int { if a < b then b else a }
  function Min(a: int, b: int): int { if a < b then a else b }

  /** The days from `lo` to `hi`. */
  function Span(lo: Day, hi: Day): (s: set<Day>)
    ensures forall d :: d in s <==> lo <= d <= hi
    ensures |s| == Max(0, hi - lo + 1)
    decreases hi - lo
  {
    if hi < lo then {} else Span(lo, hi - 1) + {hi}
  }

  function Resolve(today: Day, window: int, maxWindow: int, cov: Coverage): Option<Window> {
    if cov.Unreadable? then None
    else
      var w := Max(window, 1);
      var floor := today - Max(maxWindow, w);
      var start := if cov.latest == 0 then today - w else Min(cov.latest + 1, today - w);
      if start < floor then Some(Window(floor, today - 1, Some((start, floor - 1))))
      else Some(Window(start, today - 1, None))
  }

  // ---------------------------------------------------------------- the loops

  /** `latestGradedDay` over the parsed `dt` of every stored row; None does not parse. */
  method LatestGradedDay(rows: seq<Option<Day>>) returns (latest: Day)
    ensures forall i :: 0 <= i < |rows| && rows[i].Some? ==> rows[i].value <= latest
    ensures latest == 0 || Some(latest) in rows
  {
    latest := 0;
    for i := 0 to |rows|
      invariant latest >= 0 && (latest == 0 || Some(latest) in rows)
      invariant forall k :: 0 <= k < i && rows[k].Some? ==> rows[k].value <= latest
    {
      if rows[i].None? { continue; }
      if rows[i].value > latest {
        latest := rows[i].value;
        assert rows[i] == Some(latest);
      }
    }
  }

  /** `countDays`, counted by stepping. */
  method CountDays(start: Day, end: Day) returns (n: nat)
    ensures n == |Span(start, end)|
  {
    n := 0;
    var d := start;
    while d <= end
      invariant start <= d <= Max(start, end + 1) && n == d - start
    {
      n := n + 1;
      d := d + 1;
    }
  }

  /** `resolveGradeWindow`, as it reassigns its bounds and collects its notes. */
  method ResolveGradeWindow(today: Day, window: int, maxWindow: int, cov: Coverage)
    returns (r: Option<Window>)
    ensures r == Resolve(today, window, maxWindow, cov)
  {
    var w, ceiling := window, maxWindow;
    if w < 1 { w := 1; }
    if ceiling < w { ceiling := w; }
    var end := today - 1;
    var start := today - w;
    var floor := today - ceiling;
    match cov {
      case Unreadable => return None;
      case Covers(latest) =>
        if latest != 0 && latest + 1 < start { start := latest + 1; }
    }
    var capped := None;
    if start < floor {
      capped := Some((start, floor - 1));
      start := floor;
    }
    r := Some(Window(start, end, capped));
  }

  /** What the window promises of every day `d`. If it comes after the newest stored one it
      is re-graded or named; if it is one of the fixed days it is re-graded; and reaching
      back past the fixed days only ever covers days the store does not hold. What is capped
      lies just below the ceiling; over an empty store only the fixed days are graded. */
  lemma WindowReachesTheNewestDay(today: Day, window: int, maxWindow: int, cov: Coverage, d: Day)
    ensures Resolve(today, window, maxWindow, cov).None? <==> cov.Unreadable?
    ensures cov.Covers? ==>
      var r := Resolve(today, window, maxWindow, cov).value;
      var w := Max(window, 1);
      && r.end == today - 1 && today - Max(maxWindow, w) <= r.start
      && (today - w <= d < today ==> r.start <= d <= r.end)
      && (cov.latest != 0 && cov.latest < d < today ==> r.start <= d || InRange(r.capped, d))
      && (cov.latest != 0 && r.start <= d <= cov.latest && d <= r.end ==> today - w <= d)
      && (InRange(r.capped, d) ==> cov.latest < d < r.start)
      && (r.capped.Some? ==>
            (cov.latest != 0 && r.capped.value == (cov.latest + 1, r.start - 1)
             && r.capped.value.0 <= r.capped.value.1 && r.start == today - Max(maxWindow, w)))
      && (cov.latest == 0 ==> r == Window(today - w, today - 1, None))
  {
  }

  predicate InRange(r: Option<(Day, Day)>, d: Day) { r.Some? && r.value.0 <= d <= r.value.1 }

  // ---------------------------------------------------------------- runs

  /** One scheduled default run: its day and flags, and how it ended. A run that failed
      before writing is a missed one; a completing one writes every gradeable day. */
  datatype Outcome = Missed | StoreUnreadable | Completed

  datatype Run = Run(today: Day, window: int, maxWindow: int, outcome: Outcome)

  /** The graded days, and every day some run printed as capped. */
  datatype State = State(graded: set<Day>, named: set<Day>)

  ghost predicate IsNewest(graded: set<Day>, latest: Day) {
    && (latest == 0 || latest in graded)
    && forall d :: d in graded ==> 0 < d <= latest
  }

  function Newest(graded: set<Day>): (latest: Day)
    requires forall d :: d in graded ==> 0 < d
    ensures IsNewest(graded, latest)
  {
    if graded == {} then 0
    else if exists m :: m in graded && forall d :: d in graded ==> d <= m then
      var m :| m in graded && forall d :: d in graded ==> d <= m;
      m
    else
      HasMax(graded); 0
  }

  lemma SomeDay(s: set<Day>)
    ensures s == {} || exists x :: x in s
  {
    assert (forall x :: x !in s) ==> s == {};
  }

  lemma {:induction false} HasMax(s: set<Day>)
    requires s != {}
    ensures exists m :: m in s && forall d :: d in s ==> d <= m
  {
    SomeDay(s);
    var x :| x in s;
    if s == {x} { assert x in s; }
    else {
      var rest := s - {x};
      assert s == rest + {x};
      HasMax(rest);
      var m :| m in rest && forall d :: d in rest ==> d <= m;
      var top := Max(m, x);
      assert top in s;
      forall d | d in s ensures d <= top { if d != x { assert d in rest; } }
    }
  }

  function DaysIn(r: Window, gradeable: set<Day>): set<Day> {
    set d | d in gradeable && r.start <= d <= r.end
  }

  function CappedDays(r: Window): set<Day> {
    if r.capped.None? then {} else Span(r.capped.value.0, r.capped.value.1)
  }

  predicate Positive(s: set<Day>) { forall d :: d in s ==> 0 < d }

  function Step(s: State, run: Run, gradeable: set<Day>): State
    requires Positive(s.graded)
  {
    if run.outcome.Missed? then s
    else
      var cov := if run.outcome.StoreUnreadable? then Unreadable else Covers(Newest(s.graded));
      match Resolve(run.today, run.window, run.maxWindow, cov)
      case None => s
      case Some(r) => State(s.graded + DaysIn(r, gradeable), s.named + CappedDays(r))
  }

  function After(s: State, runs: seq<Run>, gradeable: set<Day>): (t: State)
    requires Positive(s.graded) && Positive(gradeable)
    ensures Positive(t.graded)
  {
    if runs == [] then s
    else Step(After(s, runs[..|runs| - 1], gradeable), runs[|runs| - 1], gradeable)
  }

  class GradeStore {
    var graded: set<Day>
    var named: set<Day>

    constructor ()
      ensures graded == {} && named == {}
    {
      graded, named := {}, {};
    }

    /** One partition per gradeable day of the window. */
    method WriteDays(r: Window, gradeable: set<Day>)
      modifies this`graded
      ensures graded == old(graded) + DaysIn(r, gradeable)
    {
      var d := r.start;
      while d <= r.end
        invariant r.start <= d
        invariant graded == old(graded) + (set x | x in gradeable && r.start <= x < d && x <= r.end)
      {
        if d in gradeable { graded := graded + {d}; }
        d := d + 1;
      }
    }

    /** One default run against the store: read its coverage, resolve, write. */
    method GradeRun(today: Day, window: int, maxWindow: int, rows: seq<Option<Day>>,
                    readable: bool, gradeable: set<Day>) returns (ok: bool)
      requires Positive(graded) && Stores(graded, rows)
      modifies this
      ensures State(graded, named) ==
        Step(State(old(graded), old(named)),
             Run(today, window, maxWindow, if readable then Completed else StoreUnreadable), gradeable)
      ensures ok <==> readable
    {
      var cov := Unreadable;
      if readable {
        var latest := LatestGradedDay(rows);
        NewestOfRows(graded, rows, latest);
        cov := Covers(latest);
      }
      var r := ResolveGradeWindow(today, window, maxWindow, cov);
      if r.None? { return false; }
      named := named + CappedDays(r.value);
      WriteDays(r.value, gradeable);
      ok := true;
    }
  }

  /** The rows name exactly the graded days. */
  ghost predicate Stores(graded: set<Day>, rows: seq<Option<Day>>) {
    && (forall i :: 0 <= i < |rows| && rows[i].Some? ==> rows[i].value in graded)
    && (forall d :: d in graded ==> Some(d) in rows)
  }

  lemma NewestOfRows(graded: set<Day>, rows: seq<Option<Day>>, latest: Day)
    requires Stores(graded, rows) && Positive(graded)
    requires forall i :: 0 <= i < |rows| && rows[i].Some? ==> rows[i].value <= latest
    requires latest == 0 || Some(latest) in rows
    ensures latest == Newest(graded)
  {
    forall d | d in graded ensures d <= latest {
      var i :| 0 <= i < |rows| && rows[i] == Some(d);
    }
    if latest != 0 {
      var i :| 0 <= i < |rows| && rows[i] == Some(latest);
      assert latest in graded;
    } else {
      SomeDay(graded);
    }
    assert IsNewest(graded, Newest(graded));
  }

  // ---------------------------------------------------------------- no silent hole

  /** Time moves forward between runs, however the flags and outcomes vary. */
  predicate InOrder(runs: seq<Run>) {
    forall i, j :: 0 <= i < j < |runs| ==> runs[i].today <= runs[j].today
  }

  predicate LastToday(runs: seq<Run>, d: Day) {
    runs == [] || d <= runs[|runs| - 1].today
  }

  /** Between two graded days nothing gradeable is missing without having been named. */
  ghost predicate NoSilentHole(s: State, gradeable: set<Day>) {
    forall a, b, d :: a in s.graded && b in s.graded && d in gradeable && a <= d <= b ==>
      d in s.graded || d in s.named
  }

  ghost predicate Behind(s: State, today: Day) { forall d :: d in s.graded ==> d < today }

  lemma StepLeavesNoSilentHole(s: State, run: Run, gradeable: set<Day>)
    requires Positive(s.graded) && Positive(gradeable)
    requires NoSilentHole(s, gradeable) && Behind(s, run.today)
    ensures var t := Step(s, run, gradeable); NoSilentHole(t, gradeable) && Behind(t, run.today)
  {
    var t := Step(s, run, gradeable);
    if run.outcome.Completed? {
      var latest := Newest(s.graded);
      var r := Resolve(run.today, run.window, run.maxWindow, Covers(latest)).value;
      assert t == State(s.graded + DaysIn(r, gradeable), s.named + CappedDays(r));
      forall a, b, d | a in t.graded && b in t.graded && d in gradeable && a <= d <= b
        ensures d in t.graded || d in t.named
      {
        WindowReachesTheNewestDay(run.today, run.window, run.maxWindow, Covers(latest), d);
        if r.start <= d {
          assert b < run.today;
          assert d in DaysIn(r, gradeable);
        } else {
          assert a in s.graded;
          if d > latest { assert InRange(r.capped, d); }
          else { assert latest in s.graded; }
        }
      }
    }
  }

  /** The promise of the derived window, over every sequence of default runs from an empty
      store: whatever was missed or refused, every gradeable day between two graded days is
      graded or was printed as capped. */
  lemma {:induction false} NoRunLeavesASilentHole(runs: seq<Run>, gradeable: set<Day>)
    requires Positive(gradeable) && InOrder(runs)
    ensures NoSilentHole(After(State({}, {}), runs, gradeable), gradeable)
    ensures runs != [] ==> Behind(After(State({}, {}), runs, gradeable), runs[|runs| - 1].today)
  {
    if runs != [] {
      var init := runs[..|runs| - 1];
      NoRunLeavesASilentHole(init, gradeable);
      var s := After(State({}, {}), init, gradeable);
      assert Behind(s, runs[|runs| - 1].today) by {
        if init != [] { assert init[|init| - 1].today <= runs[|runs| - 1].today; }
      }
      StepLeavesNoSilentHole(s, runs[|runs| - 1], gradeable);
    }
  }

  /** A completed run whose ceiling spans the outage leaves nothing to name: from the newest
      day stored before the outage to yesterday, everything gradeable is graded. */
  lemma OutageWithinTheCeilingHeals(s: State, run: Run, gradeable: set<Day>)
    requires Positive(s.graded) && Positive(gradeable) && run.outcome.Completed?
    requires s.graded != {}
    ensures var latest := Newest(s.graded);
      var t := Step(s, run, gradeable);
      (run.today - latest - 1 <= Max(run.maxWindow, Max(run.window, 1)) <==>
         Resolve(run.today, run.window, run.maxWindow, Covers(latest)).value.capped.None?)
      && (run.today - latest - 1 <= Max(run.maxWindow, Max(run.window, 1)) ==>
            t.named == s.named
            && forall d :: d in gradeable && latest < d < run.today ==> d in t.graded)
  {
    SomeDay(s.graded);
    var x :| x in s.graded;
  }

  // ---------------------------------------------------------------- why the refusal

  /** The rejected alternative: on an unreadable store, grade the fixed days anyway. */
  function StepWithFallback(s: State, run: Run, gradeable: set<Day>): State
    requires Positive(s.graded)
  {
    if run.outcome.StoreUnreadable? then
      s.(graded := s.graded + DaysIn(Window(run.today - Max(run.window, 1), run.today - 1, None), gradeable))
    else Step(s, run, gradeable)
  }

  function AfterWithFallback(s: State, runs: seq<Run>, gradeable: set<Day>): (t: State)
    requires Positive(s.graded) && Positive(gradeable)
    ensures Positive(t.graded)
  {
    if runs == [] then s
    else StepWithFallback(AfterWithFallback(s, runs[..|runs| - 1], gradeable),
                          runs[|runs| - 1], gradeable)
  }

  /** A gradeable day neither graded nor named, behind the newest day and out of reach of
      the fixed days of any run from `today` on whose window is at most `w`. */
  ghost predicate LostDay(s: State, gradeable: set<Day>, d: Day, today: Day, w: int) {
    && d in gradeable && d !in s.graded && d !in s.named
    && (exists b :: b in s.graded && d < b)
    && d < today - Max(w, 1)
  }

  /** A lost day stays lost: no later run, of either kind, grades it or names it. */
  lemma {:induction false} LostDaysStayLost(s: State, runs: seq<Run>, gradeable: set<Day>,
                                            d: Day, today: Day, w: int)
    requires Positive(s.graded) && Positive(gradeable) && LostDay(s, gradeable, d, today, w)
    requires forall i :: 0 <= i < |runs| ==> today <= runs[i].today && runs[i].window <= w
    ensures LostDay(After(s, runs, gradeable), gradeable, d, today, w)
    ensures LostDay(AfterWithFallback(s, runs, gradeable), gradeable, d, today, w)
  {
    if runs != [] {
      var init, run := runs[..|runs| - 1], runs[|runs| - 1];
      LostDaysStayLost(s, init, gradeable, d, today, w);
      LostStep(After(s, init, gradeable), run, gradeable, d, today, w);
      LostStep(AfterWithFallback(s, init, gradeable), run, gradeable, d, today, w);
    }
  }

  lemma LostStep(s: State, run: Run, gradeable: set<Day>, d: Day, today: Day, w: int)
    requires Positive(s.graded) && LostDay(s, gradeable, d, today, w)
    requires today <= run.today && run.window <= w
    ensures LostDay(Step(s, run, gradeable), gradeable, d, today, w)
    ensures LostDay(StepWithFallback(s, run, gradeable), gradeable, d, today, w)
  {
    var b :| b in s.graded && d < b;
    var t, u := Step(s, run, gradeable), StepWithFallback(s, run, gradeable);
    assert b in t.graded && b in u.graded;
    assert b <= Newest(s.graded);
  }

  /** Falling back to the fixed days on an unreadable store, after an outage longer than
      they span, turns every gradeable day of the outage into a lost one; the refusal
      loses none of them. */
  lemma FallbackLosesTheOutage(s: State, run: Run, gradeable: set<Day>, d: Day, w: int)
    requires Positive(s.graded) && Positive(gradeable) && run.outcome.StoreUnreadable?
    requires 1 <= run.window <= w
    requires d in gradeable && d !in s.graded && d !in s.named && d < run.today - w
    requires run.today - 1 in gradeable
    ensures LostDay(StepWithFallback(s, run, gradeable), gradeable, d, run.today, w)
    ensures Step(s, run, gradeable) == s
  {
    assert run.today - 1 in StepWithFallback(s, run, gradeable).graded;
  }

  /** The fallback's hole is really reachable, from an empty store, in three runs. */
  lemma FallbackHoleIsReachable(gradeable: set<Day>)
    requires Positive(gradeable) && {99, 101, 107} <= gradeable
    ensures var runs := [Run(100, 3, 14, Completed), Run(104, 3, 14, Missed), Run(108, 3, 14, StoreUnreadable)];
      LostDay(AfterWithFallback(State({}, {}), runs, gradeable), gradeable, 101, 108, 3)
  {
    var runs := [Run(100, 3, 14, Completed), Run(104, 3, 14, Missed), Run(108, 3, 14, StoreUnreadable)];
    var s0 := State({}, {});
    var s1 := StepWithFallback(s0, runs[0], gradeable);
    assert runs[..2][..1] == [runs[0]] && runs[..2][..1][..0] == [] && runs[..2] == [runs[0], runs[1]];
    assert AfterWithFallback(s0, [runs[0]], gradeable) == s1;
    assert AfterWithFallback(s0, runs[..2], gradeable) == s1;
    FallbackLosesTheOutage(s1, runs[2], gradeable, 101, 3);
  }

  /** That a completing run writes its whole window is needed: once a run has stored only its
      newest day, over an outage longer than the fixed days, no later run whose window is no
      wider ever grades the others or names them, whatever the flags and outcomes. */
  lemma PartialWriteLosesDays(s: State, run: Run, later: seq<Run>, gradeable: set<Day>, d: Day, w: int)
    requires Positive(s.graded) && Positive(gradeable)
    requires run.today - 1 in gradeable && run.window <= w
    requires d in gradeable && d !in s.graded && d !in s.named && d < run.today - Max(w, 1)
    requires forall i :: 0 <= i < |later| ==> run.today <= later[i].today && later[i].window <= w
    ensures var partial := s.(graded := s.graded + {run.today - 1});
      var end := After(partial, later, gradeable);
      d !in end.graded && d !in end.named
  {
    var partial := s.(graded := s.graded + {run.today - 1});
    assert run.today - 1 in partial.graded;
    LostDaysStayLost(partial, later, gradeable, d, run.today, w);
  }
}
