/** internal/opsalert: what a finished run is worth saying, judged from the run ledger alone. */
module OpsAlert {
  import opened Wrappers
  import opened Sorting

  datatype Status = Running | Success | Failed

  datatype Record = Record(id: string, command: string, user: string, status: Status,
                           outcome: string)

  datatype Kind = Quiet | Started | Escalated | Recovered

  datatype Verdict = Verdict(kind: Kind, streak: nat)

  const EscalateAt := 3

  /** A terminal record of this command and tenant. */
  predicate Counts(r: Record, command: string, user: string) {
    r.command == command && r.user == user && r.status != Running
  }

  const TenantActionable := "tenant_actionable"

  /** A connect that ended as a result, and left the tenant, not the operator, to act. */
  predicate TenantFault(r: Record) { r.status == Success && r.outcome == TenantActionable }

  function History(recs: seq<Record>, command: string, user: string): seq<Record> {
    Filter((r: Record) => Counts(r, command, user), recs)
  }

  function WithoutTenantFaults(hist: seq<Record>): seq<Record> {
    Filter((r: Record) => !TenantFault(r), hist)
  }

  function LeadingFailures(hist: seq<Record>): (n: nat)
    ensures n <= |hist|
  {
    if hist == [] || hist[0].status != Failed then 0 else 1 + LeadingFailures(hist[1..])
  }

  function FailureKind(n: nat): Kind {
    if n == 1 then Started else if n == EscalateAt then Escalated else Quiet
  }

  /** The verdict on a history without tenant faults, newest first. */
  function Judge(kept: seq<Record>): Verdict {
    var n := LeadingFailures(kept);
    if n > 0 then Verdict(FailureKind(n), n)
    else
      var m := if kept == [] then 0 else LeadingFailures(kept[1..]);
      if m == 0 then Verdict(Quiet, 0) else Verdict(Recovered, m)
  }

  /** `Streak`, over records newest first. */
  function Streak(recs: seq<Record>, command: string, user: string): Verdict {
    var hist := History(recs, command, user);
    if hist == [] || TenantFault(hist[0]) then Verdict(Quiet, 0)
    else Judge(WithoutTenantFaults(hist))
  }

  method CountLeadingFailures(hist: seq<Record>) returns (n: nat)
    ensures n == LeadingFailures(hist)
  {
    n := 0;
    while n < |hist| && hist[n].status == Failed
      invariant n <= |hist|
      invariant LeadingFailures(hist) == n + LeadingFailures(hist[n..])
    {
      assert hist[n..][1..] == hist[n + 1..];
      n := n + 1;
    }
  }

  method JudgeStreak(recs: seq<Record>, command: string, user: string) returns (v: Verdict)
    ensures v == Streak(recs, command, user)
  {
    var hist := [];
    for i := 0 to |recs|
      invariant hist == History(recs[..i], command, user)
    {
      FilterStep((r: Record) => Counts(r, command, user), recs, i);
      if Counts(recs[i], command, user) { hist := hist + [recs[i]]; }
    }
    assert recs[..|recs|] == recs;
    if hist == [] || TenantFault(hist[0]) { return Verdict(Quiet, 0); }
    var kept := [];
    for i := 0 to |hist|
      invariant kept == WithoutTenantFaults(hist[..i])
    {
      FilterStep((r: Record) => !TenantFault(r), hist, i);
      if !TenantFault(hist[i]) { kept := kept + [hist[i]]; }
    }
    assert hist[..|hist|] == hist;
    FilterHead((r: Record) => !TenantFault(r), hist);
    if kept[0].status == Success {
      var m := CountLeadingFailures(kept[1..]);
      return if m == 0 then Verdict(Quiet, 0) else Verdict(Recovered, m);
    }
    HistoryIsTerminal(recs, command, user, hist[0]);
    var n := CountLeadingFailures(kept);
    v := Verdict(FailureKind(n), n);
  }

  lemma HistoryIsTerminal(recs: seq<Record>, command: string, user: string, r: Record)
    requires r in History(recs, command, user)
    ensures r in recs && Counts(r, command, user)
  {
    FilterKeeps((r: Record) => Counts(r, command, user), recs, r);
  }

  /** A tenant is judged on their own runs of the command: records of another tenant, of other
      commands or of runs still going change nothing, wherever in the ledger they fall. */
  lemma StreakIsolatesTenants(newer: seq<Record>, others: seq<Record>, older: seq<Record>,
                              command: string, user: string)
    requires forall r :: r in others ==> r.command != command || r.user != user || r.status == Running
    ensures Streak(newer + others + older, command, user) == Streak(newer + older, command, user)
  {
    var own := (r: Record) => Counts(r, command, user);
    FilterAppend(own, newer + others, older);
    FilterAppend(own, newer, others);
    FilterAppend(own, newer, older);
    FilterNone(own, others);
    assert History(newer, command, user) + [] == History(newer, command, user);
    assert History(newer + others + older, command, user) == History(newer + older, command, user);
  }

  /** A success that left the tenant to act is evidence of nothing: as the newest run it is
      passed over in silence, and behind a newer run of the job it might as well not be there.
      Any other run, whatever outcome it names, stays in the history. */
  lemma SetAsideRunsAreNoEvidence(newer: seq<Record>, r: Record, older: seq<Record>)
    requires r.status != Running
    ensures var setAside := r.status == Success && r.outcome == "tenant_actionable";
      && (setAside && History(newer, r.command, r.user) == [] ==>
            Streak(newer + [r] + older, r.command, r.user) == Verdict(Quiet, 0))
      && (setAside && History(newer, r.command, r.user) != [] ==>
            Streak(newer + [r] + older, r.command, r.user) == Streak(newer + older, r.command, r.user))
      && (r in WithoutTenantFaults(History(newer + [r] + older, r.command, r.user)) <==> !setAside)
  {
    var h, t := History(newer, r.command, r.user), History(older, r.command, r.user);
    HistoryAround(newer, r, older);
    KeptAround(h, r, t);
    assert h == [] ==> (h + [r] + t)[0] == r;
    assert h != [] ==> (h + [r] + t)[0] == h[0] == (h + t)[0];
  }

  lemma HistoryAround(newer: seq<Record>, r: Record, older: seq<Record>)
    requires r.status != Running
    ensures var h, t := History(newer, r.command, r.user), History(older, r.command, r.user);
      && History(newer + [r] + older, r.command, r.user) == h + [r] + t
      && History(newer + older, r.command, r.user) == h + t
  {
    var own := (x: Record) => Counts(x, r.command, r.user);
    FilterAppend(own, newer + [r], older);
    FilterAppend(own, newer, [r]);
    FilterAppend(own, newer, older);
    FilterAll(own, [r]);
  }

  lemma KeptAround(h: seq<Record>, r: Record, t: seq<Record>)
    ensures r in WithoutTenantFaults(h + [r] + t) <==> !TenantFault(r)
    ensures TenantFault(r) ==> WithoutTenantFaults(h + [r] + t) == WithoutTenantFaults(h + t)
  {
    var kept := (x: Record) => !TenantFault(x);
    FilterAppend(kept, h + [r], t);
    FilterAppend(kept, h, [r]);
    FilterAppend(kept, h, t);
    FilterKeeps(kept, h + [r] + t, r);
    if TenantFault(r) {
      FilterNone(kept, [r]);
      assert WithoutTenantFaults(h) + [] == WithoutTenantFaults(h);
    }
  }

  // ---------------------------------------------------------------- once per outage

  /** The verdicts of a run of runs of one command and tenant, newest first, each judged
      when it was the newest. */
  function Verdicts(runs: seq<Record>, command: string, user: string): seq<Kind> {
    if runs == [] then []
    else [Streak(runs, command, user).kind] + Verdicts(runs[1..], command, user)
  }

  function Count(kinds: seq<Kind>, k: Kind): nat {
    if kinds == [] then 0 else (if kinds[0] == k then 1 else 0) + Count(kinds[1..], k)
  }

  /** The lengths of the maximal runs of failures, newest first: each run is taken whole, and
      the search goes on behind it. */
  function Outages(kept: seq<Record>): (lengths: seq<nat>)
    ensures forall i :: 0 <= i < |lengths| ==> lengths[i] > 0
    decreases |kept|
  {
    if kept == [] then []
    else
      var n := LeadingFailures(kept);
      if n == 0 then Outages(kept[1..]) else [n] + Outages(kept[n..])
  }

  predicate IsLong(n: nat) { n >= EscalateAt }

  predicate Own(runs: seq<Record>, command: string, user: string) {
    forall i :: 0 <= i < |runs| ==> Counts(runs[i], command, user)
  }

  lemma StreakOfOwn(runs: seq<Record>, command: string, user: string)
    requires Own(runs, command, user) && runs != []
    ensures Streak(runs, command, user) ==
      if TenantFault(runs[0]) then Verdict(Quiet, 0) else Judge(WithoutTenantFaults(runs))
    ensures TenantFault(runs[0]) ==> WithoutTenantFaults(runs) == WithoutTenantFaults(runs[1..])
    ensures !TenantFault(runs[0]) ==>
      WithoutTenantFaults(runs) == [runs[0]] + WithoutTenantFaults(runs[1..])
  {
    FilterAll((r: Record) => Counts(r, command, user), runs);
    FilterHead((r: Record) => !TenantFault(r), runs);
  }

  /** One more run at the head of a history changes its outages in one of three ways: it ends
      or leaves none, it starts one, or it makes the current one longer. */
  lemma {:induction false} OutagesGrow(r: Record, rest: seq<Record>)
    ensures r.status != Failed ==> Outages([r] + rest) == Outages(rest)
    ensures r.status == Failed && LeadingFailures(rest) == 0 ==> Outages([r] + rest) == [1] + Outages(rest)
    ensures r.status == Failed && LeadingFailures(rest) > 0 ==>
      Outages(rest) != [] && Outages(rest)[0] == LeadingFailures(rest)
      && Outages([r] + rest) == [LeadingFailures(rest) + 1] + Outages(rest)[1..]
  {
    var all, n := [r] + rest, LeadingFailures(rest);
    assert all[1..] == rest;
    if r.status == Failed {
      assert all[n + 1..] == rest[n..];
      if n == 0 { assert rest[0..] == rest; }
    }
  }

  /** Over any history, tenant faults aside: one Started per outage, one Escalated per outage
      that lasted three runs, and one Recovered per outage that ended. */
  lemma {:induction false} OneAlertPerOutage(runs: seq<Record>, command: string, user: string)
    requires Own(runs, command, user)
    ensures var kinds, kept := Verdicts(runs, command, user), WithoutTenantFaults(runs);
      && Count(kinds, Started) == |Outages(kept)|
      && Count(kinds, Escalated) == |Filter(IsLong, Outages(kept))|
      && Count(kinds, Recovered) == |Outages(kept)| - (if LeadingFailures(kept) > 0 then 1 else 0)
  {
    if runs != [] {
      var rest := WithoutTenantFaults(runs[1..]);
      OneAlertPerOutage(runs[1..], command, user);
      StreakOfOwn(runs, command, user);
      if !TenantFault(runs[0]) {
        assert Counts(runs[0], command, user);
        OneMore(runs[0], rest);
      }
      var kinds := Verdicts(runs, command, user);
      assert kinds[1..] == Verdicts(runs[1..], command, user);
    }
  }

  /** How many outages, and how many long ones, one more run adds: what it is judged to be. */
  lemma OneMore(r: Record, rest: seq<Record>)
    requires r.status != Running
    ensures var kept, v := [r] + rest, Judge([r] + rest);
      && |Outages(kept)| == |Outages(rest)| + (if v.kind == Started then 1 else 0)
      && |Filter(IsLong, Outages(kept))| ==
           |Filter(IsLong, Outages(rest))| + (if v.kind == Escalated then 1 else 0)
      && (v.kind == Started <==> LeadingFailures(kept) > 0 && LeadingFailures(rest) == 0)
      && (v.kind == Recovered <==> LeadingFailures(kept) == 0 && LeadingFailures(rest) > 0)
  {
    assert ([r] + rest)[1..] == rest;
    OutagesGrow(r, rest);
    var before, n := Outages(rest), LeadingFailures(rest);
    if r.status == Failed {
      var after := Outages([r] + rest);
      FilterHead(IsLong, after);
      if n == 0 { assert after[1..] == before; }
      else {
        assert after[1..] == before[1..];
        FilterHead(IsLong, before);
      }
    }
  }

  // ---------------------------------------------------------------- the bounded window

  /** What lies behind a history lengthens its leading failures only if it is nothing else. */
  lemma {:induction false} LeadingFailuresAppend(a: seq<Record>, b: seq<Record>)
    ensures LeadingFailures(a + b) ==
      LeadingFailures(a) + if LeadingFailures(a) == |a| then LeadingFailures(b) else 0
  {
    if a == [] {
      assert a + b == b;
    } else {
      assert (a + b)[1..] == a[1..] + b;
      LeadingFailuresAppend(a[1..], b);
    }
  }

  lemma {:induction false} NothingElse(a: seq<Record>)
    ensures LeadingFailures(a) == |a| <==> forall i :: 0 <= i < |a| ==> a[i].status == Failed
  {
    if a != [] {
      NothingElse(a[1..]);
      assert forall i :: 0 < i < |a| ==> a[i] == a[1..][i - 1];
    }
  }

  /** Something other than a failure lies behind the newest run. */
  predicate ReachesBack(kept: seq<Record>) { exists i :: 0 < i < |kept| && kept[i].status != Failed }

  lemma ReachingBack(a: seq<Record>)
    requires a != []
    ensures ReachesBack(a) <==> LeadingFailures(a[1..]) != |a[1..]|
  {
    NothingElse(a[1..]);
    assert forall i :: 0 < i < |a| ==> a[i] == a[1..][i - 1];
  }

  lemma JudgeHead(r: Record, rest: seq<Record>)
    ensures Judge([r] + rest) ==
      var n := LeadingFailures(rest);
      if r.status == Failed then Verdict(FailureKind(n + 1), n + 1)
      else if n == 0 then Verdict(Quiet, 0)
      else Verdict(Recovered, n)
  {
    assert ([r] + rest)[1..] == rest;
  }

  lemma JudgeAppend(a: seq<Record>, b: seq<Record>)
    requires a != []
    ensures Judge(a) == Judge(a + b) <==> ReachesBack(a) || LeadingFailures(b) == 0
  {
    var rest := a[1..];
    assert a == [a[0]] + rest && a + b == [a[0]] + (rest + b);
    JudgeHead(a[0], rest);
    JudgeHead(a[0], rest + b);
    LeadingFailuresAppend(rest, b);
    ReachingBack(a);
  }

  /** A window of the newest records gives the whole ledger's verdict on a job it still shows
      at all exactly when the newest run is a tenant fault, or the window reaches back to an
      older run that did not fail, or the job's runs behind the window do not begin with a
      failure. */
  lemma WindowSufficesExactly(recs: seq<Record>, w: nat, command: string, user: string)
    requires w <= |recs| && History(recs[..w], command, user) != []
    ensures var h := History(recs[..w], command, user);
      var b := WithoutTenantFaults(History(recs[w..], command, user));
      Streak(recs[..w], command, user) == Streak(recs, command, user) <==>
        TenantFault(h[0]) || ReachesBack(WithoutTenantFaults(h)) || LeadingFailures(b) == 0
  {
    var h, t := History(recs[..w], command, user), History(recs[w..], command, user);
    assert recs == recs[..w] + recs[w..];
    FilterAppend((r: Record) => Counts(r, command, user), recs[..w], recs[w..]);
    FilterAppend((r: Record) => !TenantFault(r), h, t);
    if !TenantFault(h[0]) {
      FilterHead((r: Record) => !TenantFault(r), h);
      JudgeAppend(WithoutTenantFaults(h), WithoutTenantFaults(t));
    }
  }

  /** The failing case: a job sparser than the window, failing once more in an outage that is
      already under way, is announced as a new outage, which the whole ledger would not say. */
  lemma SparseJobRepeatsItsAlert(older: seq<Record>, failure: Record, others: seq<Record>)
    requires failure.status == Failed && History(others, failure.command, failure.user) == []
    requires LeadingFailures(WithoutTenantFaults(History(older, failure.command, failure.user))) > 0
    ensures var window := [failure] + others;
      && Streak(window, failure.command, failure.user).kind == Started
      && Streak(window + older, failure.command, failure.user).kind != Started
  {
    var window := [failure] + others;
    var t := History(older, failure.command, failure.user);
    OnlyRunShown(failure, others);
    FilterAppend((r: Record) => Counts(r, failure.command, failure.user), window, older);
    FilterAppend((r: Record) => !TenantFault(r), [failure], t);
    JudgeHead(failure, []);
    JudgeHead(failure, WithoutTenantFaults(t));
    assert [failure] + [] == [failure] && ([failure] + t)[0] == failure;
  }

  lemma OnlyRunShown(failure: Record, others: seq<Record>)
    requires failure.status == Failed && History(others, failure.command, failure.user) == []
    ensures History([failure] + others, failure.command, failure.user) == [failure]
    ensures WithoutTenantFaults([failure]) == [failure]
  {
    var window := [failure] + others;
    assert window[1..] == others;
    FilterHead((r: Record) => Counts(r, failure.command, failure.user), window);
    FilterAll((r: Record) => !TenantFault(r), [failure]);
  }
}
