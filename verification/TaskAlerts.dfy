/**
 opsnotify/task.go and marker.go: one stopped task, delivered any number of times, is at
 most one alert, and a task that died without finishing its ledger record is never silent.
 */
module TaskAlerts {
  import opened Wrappers
  import opened Sorting
  import opened Text
  import AM = AlertMarker
  import OpsAlert

  type ExitCode = Option<int>

  /** A task state change. `command` is the joined override, empty when it is not ours;
      `note` dates the delivery inside the marker. */
  datatype Event = Event(arn: string, stopped: bool, command: string, note: string,
                         containers: seq<ExitCode>)
  {
    function Id(): string { AfterLast(arn, '/') }

    function Key(): string { "task/" + Id() }
  }

  /** No containers at all never placed, which is a failure too. */
  predicate FailedTask(containers: seq<ExitCode>) {
    containers == [] || exists i :: 0 <= i < |containers| && containers[i] != Some(0)
  }

  method Failed(containers: seq<ExitCode>) returns (failed: bool)
    ensures failed <==> FailedTask(containers)
    ensures !failed <==> containers != [] && forall c :: c in containers ==> c == Some(0)
  {
    if containers == [] { return true; }
    for i := 0 to |containers|
      invariant forall k :: 0 <= k < i ==> containers[k] == Some(0)
    {
      if containers[i] != Some(0) {
        assert containers[i] in containers;
        return true;
      }
    }
    failed := false;
  }

  predicate Terminal(r: OpsAlert.Record) { r.status != OpsAlert.Running }

  predicate IsTerminalFor(r: OpsAlert.Record, id: string) { r.id == id && Terminal(r) }

  predicate HasTerminal(recs: seq<OpsAlert.Record>, id: string) {
    exists i :: 0 <= i < |recs| && IsTerminalFor(recs[i], id)
  }

  /** `terminalRecord`: the first terminal record for the id. */
  method TerminalRecord(recs: seq<OpsAlert.Record>, id: string) returns (r: Option<OpsAlert.Record>)
    ensures r == FirstTerminal(recs, id)
  {
    for i := 0 to |recs|
      invariant FirstTerminal(recs, id) == FirstTerminal(recs[i..], id)
    {
      assert recs[i..][1..] == recs[i + 1..];
      if IsTerminalFor(recs[i], id) { return Some(recs[i]); }
    }
    r := None;
  }

  function FirstTerminal(recs: seq<OpsAlert.Record>, id: string): (r: Option<OpsAlert.Record>)
    ensures r.Some? <==> HasTerminal(recs, id)
    ensures r.Some? ==> r.value in recs && IsTerminalFor(r.value, id)
  {
    if recs == [] then None
    else if IsTerminalFor(recs[0], id) then Some(recs[0])
    else
      assert forall i :: 0 < i < |recs| ==> recs[i] == recs[1..][i - 1];
      FirstTerminal(recs[1..], id)
  }

  /** One delivery: the event, what the ledger read returned (None is an error), and what
      the world does to the send and its marker. */
  datatype Delivery = Delivery(event: Event, recs: Option<seq<OpsAlert.Record>>, faults: AM.Faults)

  datatype Alarm = NoAlarm | Crash | Verdict(kind: OpsAlert.Kind)

  /** What a delivery asks to be sent, if anything. */
  function AlarmFor(d: Delivery): Alarm {
    if !d.event.stopped || d.event.command == "" || d.recs.None? then NoAlarm
    else
      match FirstTerminal(d.recs.value, d.event.Id())
      case None => if FailedTask(d.event.containers) then Crash else NoAlarm
      case Some(own) =>
        var k := OpsAlert.Streak(d.recs.value, d.event.command, own.user).kind;
        if k == OpsAlert.Quiet then NoAlarm else Verdict(k)
  }

  /** A delivery as the markers see it: whether it asks for an alert, and under which key. */
  datatype Attempt = Attempt(asks: bool, key: string, note: string, faults: AM.Faults) {
    function Op(): AM.Op { AM.Op(AM.Once, key, note) }
  }

  function AttemptOf(d: Delivery): Attempt {
    Attempt(AlarmFor(d) != NoAlarm, d.event.Key(), d.event.note, d.faults)
  }

  function AttemptsOf(ds: seq<Delivery>): seq<Attempt> {
    seq(|ds|, i requires 0 <= i < |ds| => AttemptOf(ds[i]))
  }

  function Handle(w: AM.World, a: Attempt): AM.World {
    if a.asks then AM.Apply(w, a.Op(), a.faults) else w
  }

  /** `handleTask` over the ops marker store and the alert channel. */
  method HandleTask(d: Delivery, markers: AM.Marker, channel: AM.Channel) returns (failed: bool)
    requires markers.store as object? != channel
    modifies markers.store, channel
    ensures markers.store != null ==>
      AM.World(markers.store.blobs, channel.delivered) ==
      old(Handle(AM.World(markers.store.blobs, channel.delivered), AttemptOf(d)))
    ensures markers.store == null ==>
      channel.delivered == old(channel.delivered) +
        if AlarmFor(d) != NoAlarm && d.faults.sendOk then [AM.Delivery(d.event.Key(), d.event.note)] else []
    ensures failed ==> channel.delivered == old(channel.delivered)
  {
    failed := false;
    if !d.event.stopped || d.event.command == "" { return; }
    if d.recs.None? { return true; }
    var own := TerminalRecord(d.recs.value, d.event.Id());
    if own.None? {
      var dead := Failed(d.event.containers);
      if !dead { return; }
    } else {
      var v := OpsAlert.JudgeStreak(d.recs.value, d.event.command, own.value.user);
      if v.kind == OpsAlert.Quiet { return; }
    }
    var sent: bool;
    sent, failed := markers.SendOnce(d.event.Key(), d.event.note, channel, d.faults);
  }

  function Run(w: AM.World, attempts: seq<Attempt>): AM.World {
    if attempts == [] then w
    else Handle(Run(w, attempts[..|attempts| - 1]), attempts[|attempts| - 1])
  }

  /** The marker calls a run of deliveries makes. */
  function Calls(attempts: seq<Attempt>): AM.Trace {
    if attempts == [] then []
    else
      var a := attempts[|attempts| - 1];
      Calls(attempts[..|attempts| - 1]) + if a.asks then [(a.Op(), a.faults)] else []
  }

  lemma {:induction false} RunIsCalls(attempts: seq<Attempt>)
    ensures Run(AM.Fresh, attempts) == AM.Run(AM.Fresh, Calls(attempts))
  {
    if attempts != [] {
      var init, a := attempts[..|attempts| - 1], attempts[|attempts| - 1];
      RunIsCalls(init);
      assert Calls(init) + [] == Calls(init);
      if a.asks { AM.RunAppend(AM.Fresh, Calls(init), (a.Op(), a.faults)); }
    }
  }

  /** Distinct tasks have distinct keys, so no task can silence another's alert. */
  lemma KeysAreInjective(a: Event, b: Event)
    requires a.Key() == b.Key()
    ensures a.Id() == b.Id()
  {
    assert a.Key()[5..] == a.Id() && b.Key()[5..] == b.Id();
  }

  /** The attempt asked for this alert and met a channel that took it. */
  predicate AcceptedAt(a: Attempt, key: string) { a.key == key && a.asks && a.faults.sendOk }

  predicate Accepted(attempts: seq<Attempt>, key: string) {
    exists i :: 0 <= i < |attempts| && AcceptedAt(attempts[i], key)
  }

  /** Every delivery of this task that calls the markers meets ones that work. */
  predicate ReliableFor(attempts: seq<Attempt>, key: string) {
    forall i :: 0 <= i < |attempts| && attempts[i].key == key && attempts[i].asks ==>
      attempts[i].faults.Reliable()
  }

  lemma {:induction false} CallsOf(attempts: seq<Attempt>, key: string)
    requires ReliableFor(attempts, key)
    ensures AM.ReliableOn(Calls(attempts), key, AM.Once)
    ensures AM.SomeSendAccepted(Calls(attempts), key) <==> Accepted(attempts, key)
  {
    if attempts != [] {
      var init, a := attempts[..|attempts| - 1], attempts[|attempts| - 1];
      CallsOf(init, key);
      AcceptedGrows(init, a, key);
      assert attempts == init + [a];
      assert Calls(init) + [] == Calls(init);
      if a.asks { AM.AcceptedGrows(Calls(init), (a.Op(), a.faults), key); }
    }
  }

  lemma AcceptedGrows(init: seq<Attempt>, a: Attempt, key: string)
    ensures Accepted(init + [a], key) <==> Accepted(init, key) || AcceptedAt(a, key)
  {
    var more := init + [a];
    assert more[|init|] == a;
    assert forall i :: 0 <= i < |init| ==> more[i] == init[i];
  }

  /** With markers that work, a task's alert is delivered exactly once if any delivery that
      asked for it met a channel that accepts, and never otherwise, whatever the deliveries
      of other tasks do in between. */
  lemma OneAlertPerTask(attempts: seq<Attempt>, key: string)
    requires ReliableFor(attempts, key)
    ensures var w := Run(AM.Fresh, attempts);
      && |AM.NotesFor(w.delivered, key)| == (if Accepted(attempts, key) then 1 else 0)
      && (key in w.blobs <==> Accepted(attempts, key))
  {
    RunIsCalls(attempts);
    CallsOf(attempts, key);
    AM.SendOnceExactlyOnce(Calls(attempts), key);
  }

  // ---------------------------------------------------------------- the life of one task

  /** How a task's life ended: the command's exit code if the entrypoint saw it, whether its
      terminal ledger record was written, and whether the process was killed. */
  datatype Life = Life(id: string, rc: Option<int>, recorded: bool, killed: bool) {
    predicate Valid() { (recorded ==> rc.Some?) && (rc.None? ==> killed) }

    predicate Succeeded() { rc == Some(0) && !killed }
  }

  /** A delivery of this task's stop, read through some window of the ledger: its containers
      say how it ended, and no terminal record of it can be read that was not written. */
  predicate Describes(d: Delivery, life: Life) {
    && d.event.stopped && d.event.Id() == life.id && d.event.command != ""
    && (FailedTask(d.event.containers) <==> !life.Succeeded())
    && (d.recs.Some? && HasTerminal(d.recs.value, life.id) ==> life.recorded)
  }

  predicate AllDescribe(ds: seq<Delivery>, life: Life) {
    forall i :: 0 <= i < |ds| && ds[i].event.Key() == "task/" + life.id ==> Describes(ds[i], life)
  }

  /** A delivery whose ledger could be read and whose alert the channel took. */
  predicate HeardAt(d: Delivery, key: string) {
    d.event.Key() == key && d.recs.Some? && d.faults.sendOk
  }

  predicate Heard(ds: seq<Delivery>, key: string) {
    exists i :: 0 <= i < |ds| && HeardAt(ds[i], key)
  }

  lemma CrashAsksWhenReadable(d: Delivery, life: Life)
    requires life.Valid() && !life.recorded && Describes(d, life)
    ensures AlarmFor(d) == if d.recs.Some? && !life.Succeeded() then Crash else NoAlarm
  {
  }

  lemma CrashIsAcceptedWhenHeard(ds: seq<Delivery>, life: Life)
    requires life.Valid() && !life.recorded && !life.Succeeded() && AllDescribe(ds, life)
    ensures Accepted(AttemptsOf(ds), "task/" + life.id) <==> Heard(ds, "task/" + life.id)
  {
    var key, attempts := "task/" + life.id, AttemptsOf(ds);
    forall i | 0 <= i < |ds| ensures AcceptedAt(attempts[i], key) <==> HeardAt(ds[i], key) {
      if ds[i].event.Key() == key { CrashAsksWhenReadable(ds[i], life); }
    }
    if Accepted(attempts, key) {
      var i :| 0 <= i < |attempts| && AcceptedAt(attempts[i], key);
      assert HeardAt(ds[i], key);
    }
    if Heard(ds, key) {
      var i :| 0 <= i < |ds| && HeardAt(ds[i], key);
      assert AcceptedAt(attempts[i], key);
    }
  }

  /** Died without finishing its record: with working markers the crash alert goes out
      exactly once, as soon as one delivery can read the ledger and reach the channel. */
  lemma CrashedTaskIsHeardOnce(ds: seq<Delivery>, life: Life)
    requires life.Valid() && !life.recorded && !life.Succeeded() && AllDescribe(ds, life)
    requires ReliableFor(AttemptsOf(ds), "task/" + life.id)
    ensures |AM.NotesFor(Run(AM.Fresh, AttemptsOf(ds)).delivered, "task/" + life.id)| ==
      if Heard(ds, "task/" + life.id) then 1 else 0
  {
    CrashIsAcceptedWhenHeard(ds, life);
    OneAlertPerTask(AttemptsOf(ds), "task/" + life.id);
  }

  /** Until that has happened, every delivery that can read the ledger attempts it, and
      afterwards none does. */
  lemma CrashedTaskKeepsTrying(ds: seq<Delivery>, d: Delivery, life: Life)
    requires life.Valid() && !life.recorded && !life.Succeeded()
    requires AllDescribe(ds, life) && Describes(d, life) && d.recs.Some?
    requires ReliableFor(AttemptsOf(ds), "task/" + life.id) && d.faults.readOk
    ensures AttemptOf(d).asks
    ensures AM.Attempts(Run(AM.Fresh, AttemptsOf(ds)), AttemptOf(d).Op(), d.faults) <==>
            !Heard(ds, "task/" + life.id)
  {
    CrashAsksWhenReadable(d, life);
    CrashIsAcceptedWhenHeard(ds, life);
    OneAlertPerTask(AttemptsOf(ds), "task/" + life.id);
  }

  lemma {:induction false} NoAskNoAlert(attempts: seq<Attempt>, key: string)
    requires forall i :: 0 <= i < |attempts| && attempts[i].key == key ==> !attempts[i].asks
    ensures AM.NotesFor(Run(AM.Fresh, attempts).delivered, key) == []
  {
    if attempts != [] {
      var init, a := attempts[..|attempts| - 1], attempts[|attempts| - 1];
      NoAskNoAlert(init, key);
      AM.NotesForAppend(Run(AM.Fresh, init).delivered, AM.Delivery(a.key, a.note), key);
    }
  }

  /** Succeeded but lost its record: nothing is ever sent for it, with no assumption at all
      about the markers, the channel or the other tasks. */
  lemma SuccessWithoutRecordIsSilent(ds: seq<Delivery>, life: Life)
    requires life.Valid() && life.Succeeded() && !life.recorded && AllDescribe(ds, life)
    ensures AM.NotesFor(Run(AM.Fresh, AttemptsOf(ds)).delivered, "task/" + life.id) == []
  {
    var key, attempts := "task/" + life.id, AttemptsOf(ds);
    forall i | 0 <= i < |attempts| && attempts[i].key == key ensures !attempts[i].asks {
      CrashAsksWhenReadable(ds[i], life);
    }
    NoAskNoAlert(attempts, key);
  }

  // ---------------------------------------------------------------- runs that did finish

  /** A delivery of the stop of a task whose terminal record is `own`: whatever ledger it can
      read has that as the only one of its id, newest of its job with `older` behind it. */
  predicate Reports(d: Delivery, own: OpsAlert.Record, older: seq<OpsAlert.Record>) {
    && d.event.stopped && d.event.Id() == own.id && d.event.command == own.command != ""
    && (d.recs.Some? ==> ShowsAsNewest(d.recs.value, own, older))
  }

  predicate ShowsAsNewest(recs: seq<OpsAlert.Record>, own: OpsAlert.Record, older: seq<OpsAlert.Record>) {
    && OpsAlert.History(recs, own.command, own.user) == [own] + older
    && forall i :: 0 <= i < |recs| && IsTerminalFor(recs[i], own.id) ==> recs[i] == own
  }

  /** What is worth saying of a run: the first failure of an outage, its third, and the first
      success behind one. Tenant faults are neither, and are looked through. */
  function WorthSaying(own: OpsAlert.Record, older: seq<OpsAlert.Record>): Alarm {
    var n := OpsAlert.LeadingFailures(OpsAlert.WithoutTenantFaults(older));
    if own.status == OpsAlert.Failed then
      if n == 0 then Verdict(OpsAlert.Started)
      else if n == 2 then Verdict(OpsAlert.Escalated)
      else NoAlarm
    else if OpsAlert.TenantFault(own) || n == 0 then NoAlarm
    else Verdict(OpsAlert.Recovered)
  }

  predicate OnlyRecordOf(recs: seq<OpsAlert.Record>, own: OpsAlert.Record) {
    && own in recs && own.status != OpsAlert.Running
    && forall i :: 0 <= i < |recs| && IsTerminalFor(recs[i], own.id) ==> recs[i] == own
  }

  lemma OwnIsFound(recs: seq<OpsAlert.Record>, own: OpsAlert.Record)
    requires OnlyRecordOf(recs, own)
    ensures FirstTerminal(recs, own.id) == Some(own)
  {
    var i :| 0 <= i < |recs| && recs[i] == own;
    assert IsTerminalFor(recs[i], own.id);
    var r := FirstTerminal(recs, own.id).value;
    var k :| 0 <= k < |recs| && recs[k] == r;
    assert IsTerminalFor(recs[k], own.id);
  }

  lemma NewestIsJudged(recs: seq<OpsAlert.Record>, command: string, user: string)
    ensures var h := OpsAlert.History(recs, command, user);
      var k := OpsAlert.Streak(recs, command, user).kind;
      (if h == [] then NoAlarm else WorthSaying(h[0], h[1..])) == if k == OpsAlert.Quiet then NoAlarm else Verdict(k)
  {
    var h := OpsAlert.History(recs, command, user);
    if h != [] {
      OpsAlert.HistoryIsTerminal(recs, command, user, h[0]);
      FilterHead((r: OpsAlert.Record) => !OpsAlert.TenantFault(r), h);
      OpsAlert.JudgeHead(h[0], OpsAlert.WithoutTenantFaults(h[1..]));
    }
  }

  /** A stop whose run has its terminal record in the window is announced as the newest run of
      its job and tenant deserves, and no branch passes one over. */
  lemma RecordedRunAsksExactly(d: Delivery, own: OpsAlert.Record)
    requires d.event.stopped && d.event.Id() == own.id && d.event.command != ""
    requires d.recs.Some? && OnlyRecordOf(d.recs.value, own)
    ensures var h := OpsAlert.History(d.recs.value, d.event.command, own.user);
      AlarmFor(d) == if h == [] then NoAlarm else WorthSaying(h[0], h[1..])
  {
    OwnIsFound(d.recs.value, own);
    NewestIsJudged(d.recs.value, d.event.command, own.user);
  }

  /** So a finished run that is the newest of its job is announced for what it is. */
  lemma FinishedRunAsksExactly(d: Delivery, own: OpsAlert.Record, older: seq<OpsAlert.Record>)
    requires Reports(d, own, older)
    ensures AlarmFor(d) == if d.recs.Some? then WorthSaying(own, older) else NoAlarm
  {
    if d.recs.Some? {
      assert ([own] + older)[0] == own && ([own] + older)[1..] == older;
      OpsAlert.HistoryIsTerminal(d.recs.value, own.command, own.user, own);
      RecordedRunAsksExactly(d, own);
    }
  }

  predicate AllReport(ds: seq<Delivery>, own: OpsAlert.Record, older: seq<OpsAlert.Record>) {
    forall i :: 0 <= i < |ds| && ds[i].event.Key() == "task/" + own.id ==> Reports(ds[i], own, older)
  }

  /** Deliveries that ask exactly when they can be read are accepted exactly when heard. */
  lemma AcceptedIsHeard(ds: seq<Delivery>, key: string)
    requires forall i :: 0 <= i < |ds| && ds[i].event.Key() == key ==>
      (AttemptOf(ds[i]).asks <==> ds[i].recs.Some?)
    ensures Accepted(AttemptsOf(ds), key) <==> Heard(ds, key)
  {
    var attempts := AttemptsOf(ds);
    forall i | 0 <= i < |ds| ensures AcceptedAt(attempts[i], key) <==> HeardAt(ds[i], key) { }
    if Accepted(attempts, key) {
      var i :| 0 <= i < |attempts| && AcceptedAt(attempts[i], key);
      assert HeardAt(ds[i], key);
    }
    if Heard(ds, key) {
      var i :| 0 <= i < |ds| && HeardAt(ds[i], key);
      assert AcceptedAt(attempts[i], key);
    }
  }

  /** Over any deliveries of any tasks and working markers, a finished run worth announcing is
      announced exactly once as soon as one of its deliveries can read the ledger and reach the
      channel; one that is not, never is. */
  lemma FinishedRunIsHeardOnce(ds: seq<Delivery>, own: OpsAlert.Record, older: seq<OpsAlert.Record>)
    requires AllReport(ds, own, older) && ReliableFor(AttemptsOf(ds), "task/" + own.id)
    ensures |AM.NotesFor(Run(AM.Fresh, AttemptsOf(ds)).delivered, "task/" + own.id)| ==
      if WorthSaying(own, older) != NoAlarm && Heard(ds, "task/" + own.id) then 1 else 0
  {
    var key := "task/" + own.id;
    forall i | 0 <= i < |ds| && ds[i].event.Key() == key
      ensures AttemptOf(ds[i]).asks <==> ds[i].recs.Some? && WorthSaying(own, older) != NoAlarm
    {
      FinishedRunAsksExactly(ds[i], own, older);
    }
    if WorthSaying(own, older) == NoAlarm {
      NoAskNoAlert(AttemptsOf(ds), key);
    } else {
      AcceptedIsHeard(ds, key);
      OneAlertPerTask(AttemptsOf(ds), key);
    }
  }

  // ---------------------------------------------------------------- a job's whole history

  /** The stop of the newest of these runs, delivered while the ledger holds just them. */
  predicate TellsOf(d: Delivery, runs: seq<OpsAlert.Record>, command: string) {
    && runs != [] && d.event.stopped && d.event.Id() == runs[0].id && d.event.command == command != ""
    && d.recs == Some(runs) && d.faults.Reliable() && d.faults.sendOk
  }

  predicate NewId(id: string, older: seq<OpsAlert.Record>) {
    forall i :: 0 <= i < |older| ==> older[i].id != id
  }

  /** One delivery for each of a job's runs, newest first, each read when it was the newest. */
  predicate Chronicle(stops: seq<Delivery>, runs: seq<OpsAlert.Record>, command: string, user: string) {
    if runs == [] then stops == []
    else
      && stops != [] && OpsAlert.Counts(runs[0], command, user) && NewId(runs[0].id, runs[1..])
      && TellsOf(stops[0], runs, command) && Chronicle(stops[1..], runs[1..], command, user)
  }

  function Attempted(stops: seq<Delivery>): seq<Attempt> {
    if stops == [] then [] else [AttemptOf(stops[0])] + Attempted(stops[1..])
  }

  /** The world after these attempts, newest first, the oldest handled first. */
  function Told(attempts: seq<Attempt>): AM.World {
    if attempts == [] then AM.Fresh else Handle(Told(attempts[1..]), attempts[0])
  }

  function Spoken(kinds: seq<OpsAlert.Kind>): nat {
    OpsAlert.Count(kinds, OpsAlert.Started) + OpsAlert.Count(kinds, OpsAlert.Escalated) +
    OpsAlert.Count(kinds, OpsAlert.Recovered)
  }

  /** Every alert of a job's history is sent, and nothing else: one per outage, one more for
      each that lasted three runs, and one for each that ended, tenant faults aside. */
  lemma HistoryIsAnnounced(stops: seq<Delivery>, runs: seq<OpsAlert.Record>, command: string, user: string)
    requires Chronicle(stops, runs, command, user)
    ensures var kept := OpsAlert.WithoutTenantFaults(runs);
      var outages := OpsAlert.Outages(kept);
      |Told(Attempted(stops)).delivered| ==
        |outages| + |Filter(OpsAlert.IsLong, outages)| +
        |outages| - (if OpsAlert.LeadingFailures(kept) > 0 then 1 else 0)
  {
    ChronicleIsOwn(stops, runs, command, user);
    ChronicleTells(stops, runs, command, user);
    EveryVerdictIsSent(Attempted(stops), OpsAlert.Verdicts(runs, command, user), runs);
    OpsAlert.OneAlertPerOutage(runs, command, user);
  }

  predicate KeyAmong(key: string, runs: seq<OpsAlert.Record>) {
    exists i :: 0 <= i < |runs| && key == "task/" + runs[i].id
  }

  /** Each attempt asks exactly for its run's verdict, under a key of its own. */
  predicate TellsAll(attempts: seq<Attempt>, kinds: seq<OpsAlert.Kind>, runs: seq<OpsAlert.Record>) {
    if runs == [] then attempts == [] && kinds == []
    else
      && attempts != [] && kinds != [] && NewId(runs[0].id, runs[1..])
      && Tells(attempts[0], kinds[0], "task/" + runs[0].id) && TellsAll(attempts[1..], kinds[1..], runs[1..])
  }

  lemma {:induction false} EveryVerdictIsSent(attempts: seq<Attempt>, kinds: seq<OpsAlert.Kind>,
                                              runs: seq<OpsAlert.Record>)
    requires TellsAll(attempts, kinds, runs)
    ensures |Told(attempts).delivered| == Spoken(kinds)
    ensures forall key :: key in Told(attempts).blobs ==> KeyAmong(key, runs)
  {
    if runs != [] {
      EveryVerdictIsSent(attempts[1..], kinds[1..], runs[1..]);
      SayOneMore(Told(attempts[1..]), attempts[0], kinds[0], runs);
      OneMoreSpoken(kinds[0], kinds[1..]);
      assert kinds == [kinds[0]] + kinds[1..];
    }
  }

  lemma {:induction false} ChronicleIsOwn(stops: seq<Delivery>, runs: seq<OpsAlert.Record>,
                                          command: string, user: string)
    requires Chronicle(stops, runs, command, user)
    ensures OpsAlert.Own(runs, command, user)
  {
    if runs != [] {
      ChronicleIsOwn(stops[1..], runs[1..], command, user);
      OwnGrows(runs, command, user);
    }
  }

  lemma OwnGrows(runs: seq<OpsAlert.Record>, command: string, user: string)
    requires runs != [] && OpsAlert.Counts(runs[0], command, user) && OpsAlert.Own(runs[1..], command, user)
    ensures OpsAlert.Own(runs, command, user)
  {
    assert forall i :: 0 < i < |runs| ==> runs[i] == runs[1..][i - 1];
  }

  lemma {:induction false} ChronicleTells(stops: seq<Delivery>, runs: seq<OpsAlert.Record>,
                                          command: string, user: string)
    requires Chronicle(stops, runs, command, user)
    ensures TellsAll(Attempted(stops), OpsAlert.Verdicts(runs, command, user), runs)
  {
    if runs != [] {
      ChronicleTells(stops[1..], runs[1..], command, user);
      HeadTells(stops, runs, command, user);
      OneMoreTells(AttemptOf(stops[0]), Attempted(stops[1..]), OpsAlert.Streak(runs, command, user).kind,
                   OpsAlert.Verdicts(runs[1..], command, user), runs);
    }
  }

  lemma HeadTells(stops: seq<Delivery>, runs: seq<OpsAlert.Record>, command: string, user: string)
    requires runs != [] && Chronicle(stops, runs, command, user)
    ensures stops != [] && Chronicle(stops[1..], runs[1..], command, user) && NewId(runs[0].id, runs[1..])
    ensures Tells(AttemptOf(stops[0]), OpsAlert.Streak(runs, command, user).kind, "task/" + runs[0].id)
  {
    ChronicleIsOwn(stops, runs, command, user);
    NewestOfOwn(stops[0], runs, command, user);
  }

  lemma {:induction false} OneMoreTells(a: Attempt, attempts: seq<Attempt>, k: OpsAlert.Kind,
                                        kinds: seq<OpsAlert.Kind>, runs: seq<OpsAlert.Record>)
    requires runs != [] && NewId(runs[0].id, runs[1..]) && Tells(a, k, "task/" + runs[0].id)
    requires TellsAll(attempts, kinds, runs[1..])
    ensures TellsAll([a] + attempts, [k] + kinds, runs)
  {
    assert ([a] + attempts)[1..] == attempts && ([k] + kinds)[1..] == kinds;
  }

  /** An attempt that asks exactly for a verdict that says something, over working markers. */
  predicate Tells(a: Attempt, k: OpsAlert.Kind, key: string) {
    (a.asks <==> k != OpsAlert.Quiet) && a.key == key && a.faults.Reliable() && a.faults.sendOk
  }

  lemma SayOneMore(w: AM.World, a: Attempt, k: OpsAlert.Kind, runs: seq<OpsAlert.Record>)
    requires runs != [] && Tells(a, k, "task/" + runs[0].id) && NewId(runs[0].id, runs[1..])
    requires forall key :: key in w.blobs ==> KeyAmong(key, runs[1..])
    ensures |Handle(w, a).delivered| == |w.delivered| + (if k == OpsAlert.Quiet then 0 else 1)
    ensures forall key :: key in Handle(w, a).blobs ==> KeyAmong(key, runs)
  {
    assert KeyAmong(a.key, runs);
    forall key | KeyAmong(key, runs[1..]) ensures key != a.key && KeyAmong(key, runs) {
      var i :| 0 <= i < |runs[1..]| && key == "task/" + runs[1..][i].id;
      assert key[5..] == runs[i + 1].id && a.key[5..] == runs[0].id;
      assert key == "task/" + runs[i + 1].id;
    }
  }

  lemma OneMoreSpoken(k: OpsAlert.Kind, kinds: seq<OpsAlert.Kind>)
    ensures Spoken([k] + kinds) == Spoken(kinds) + if k == OpsAlert.Quiet then 0 else 1
  {
    assert ([k] + kinds)[1..] == kinds;
  }

  lemma NewestOfOwn(d: Delivery, runs: seq<OpsAlert.Record>, command: string, user: string)
    requires OpsAlert.Own(runs, command, user) && TellsOf(d, runs, command) && NewId(runs[0].id, runs[1..])
    ensures Tells(AttemptOf(d), OpsAlert.Streak(runs, command, user).kind, "task/" + runs[0].id)
  {
    OwnRunsShow(runs, command, user);
    var own, older := runs[0], runs[1..];
    FinishedRunAsksExactly(d, own, older);
    NewestIsJudged(runs, command, user);
    assert ([own] + older)[0] == own && ([own] + older)[1..] == older;
  }

  lemma OwnRunsShow(runs: seq<OpsAlert.Record>, command: string, user: string)
    requires OpsAlert.Own(runs, command, user) && runs != [] && NewId(runs[0].id, runs[1..])
    ensures runs[0].command == command && runs[0].user == user && runs[0].status != OpsAlert.Running
    ensures ShowsAsNewest(runs, runs[0], runs[1..])
  {
    FilterAll((r: OpsAlert.Record) => OpsAlert.Counts(r, command, user), runs);
    assert runs == [runs[0]] + runs[1..];
    assert OpsAlert.Counts(runs[0], command, user);
    assert forall i :: 0 < i < |runs| ==> runs[i] == runs[1..][i - 1];
  }

  // ---------------------------------------------------------------- the bounded window

  /** The record is only looked for among the newest ones: a failed task whose record has
      slipped out of that window is taken for a crash. */
  lemma SlippedRecordReadsAsACrash(d: Delivery)
    requires d.event.stopped && d.event.command != "" && d.recs.Some?
    ensures AlarmFor(d) == Crash <==>
      FailedTask(d.event.containers) && !HasTerminal(d.recs.value, d.event.Id())
  {
  }

  /** The bounded window can raise a false alarm over working markers: a failure that was
      rightly left unannounced, as one more in a streak, is announced as a crash when its stop
      is delivered again after newer records have pushed its own out of the window. */
  lemma SlippedRecordAlertsAsACrash(e: Event, window: seq<OpsAlert.Record>, later: seq<OpsAlert.Record>,
                                    f: AM.Faults)
    requires e.stopped && e.command != "" && FailedTask(e.containers)
    requires HasTerminal(window, e.Id()) && AlarmFor(Delivery(e, Some(window), f)) == NoAlarm
    requires !HasTerminal(later, e.Id())
    requires f.Reliable() && f.sendOk
    ensures AlarmFor(Delivery(e, Some(later), f)) == Crash
    ensures AM.NotesFor(Run(AM.Fresh, [AttemptOf(Delivery(e, Some(window), f)),
                                       AttemptOf(Delivery(e, Some(later), f))]).delivered, e.Key()) == [e.note]
  {
    var first, again := Delivery(e, Some(window), f), Delivery(e, Some(later), f);
    SlippedRecordReadsAsACrash(again);
    TwoAttempts(AttemptOf(first), AttemptOf(again));
  }

  lemma TwoAttempts(a: Attempt, b: Attempt)
    requires !a.asks && b.asks && b.faults.Reliable() && b.faults.sendOk
    ensures AM.NotesFor(Run(AM.Fresh, [a, b]).delivered, b.key) == [b.note]
  {
    assert [a, b][..1] == [a] && [a][..0] == [];
    assert Run(AM.Fresh, [a]) == AM.Fresh;
    AM.NotesForAppend([], AM.Delivery(b.key, b.note), b.key);
    assert [] + [AM.Delivery(b.key, b.note)] == [AM.Delivery(b.key, b.note)];
  }
}
