/**
 Every interleaving of the writers of one tenant's connection record: the API storing
 resubmitted credentials, connect tasks storing verdicts, the session ladders of job runs
 storing sessions, and an administrator deleting the tenant. Each read and each write is a
 step of its own, any number of processes may be in flight, and any of them may die.
 */
module CredentialRaces {
  import opened Wrappers
  import opened Connection
  import opened ConnectClassify
  import opened Traces
  import CT = ConnectTask
  import TenantRun

  /** A point in the record's history: how many submissions had landed, how many deletions. */
  datatype Mark = Mark(submits: nat, deletes: nat)

  /** A process between two of its steps, with what it has read so far. */
  datatype Proc =
    | Submitting(seen: Row, read: Mark, sealed: Blob, team: string, attempt: nat)
    | LostRace(sealed: Blob, team: string, attempt: nat)
    | Connecting(seen: Row, read: Mark)
    | Checking(seen: Row, read: Mark)
    | Running(judged: Blob, first: Mark)
    | Renewing(judged: Blob, first: Mark, seen: Row, read: Mark)

  datatype Actor = Api | ConnectVerdict | CheckVerdict | Ladder

  /** One landed write: the credentials it judged, when they and the record were read, the
      record as read, the record it met and the record it left. */
  datatype Write = Write(actor: Actor, judged: Blob, first: Mark, read: Mark, seen: Row,
                         before: Row, after: Conn, here: Mark, now: int)

  /** What one submission asked for: the tenant's team at the time, and what was typed. */
  datatype Request = Request(team: string, username: string, password: string)

  /** `requests` remembers each submission under the serial its ciphertext was sealed with. */
  datatype Sys = Sys(uid: UserId, row: Row, submissions: seq<Blob>, deletes: nat,
                     nextSerial: nat, clock: int, procs: map<nat, Proc>, log: seq<Write>,
                     requests: map<nat, Request>)
  {
    function Now(): Mark { Mark(|submissions|, deletes) }

    function Without(pid: nat): Sys { this.(procs := procs - {pid}) }

    function With(pid: nat, p: Proc): Sys { this.(procs := procs[pid := p]) }
  }

  datatype Step =
    | Tick(elapsed: nat)
    | Delete
    | Die(pid: nat)
    | ApiRead(pid: nat, team: string, username: string, password: string)
    | ApiPut(pid: nat)
    | ApiReread(pid: nat)
    | ConnectRead(pid: nat)
    | ConnectPut(pid: nat, inp: CT.Inputs)
    | CheckRead(pid: nat)
    | CheckPut(pid: nat, runId: Option<string>)
    | JobRead(pid: nat)
    | LadderRead(pid: nat)
    | LadderPut(pid: nat, evidence: Evidence, session: Option<Blob>)

  const PutAttempts := 5

  predicate Admitted(row: Row, now: int) { row.Some? ==> !RefusesSubmission(row.value, now) }

  /** The credentials a process that read this record opened and signed in with. */
  function CredsIn(seen: Row): Blob { if seen.Some? then seen.value.creds else NoBlob }

  /** The store's answer to a put: it lands, or the record is left exactly as it is. */
  function TryPut(s: Sys, pid: nat, c: Conn, actor: Actor, judged: Blob, first: Mark,
                  read: Mark, seen: Row): Sys
  {
    if PutOutcome(s.row, c, true) != PutOk then s.Without(pid)
    else
      s.(row := AfterPut(s.row, c, s.clock, true),
         submissions := if actor == Api then s.submissions + [c.creds] else s.submissions,
         procs := s.procs - {pid},
         log := s.log + [Write(actor, judged, first, read, seen, s.row, Stored(c, s.clock),
                               s.Now(), s.clock)])
  }

  /** A step no process is ready for does nothing. */
  function Next(s: Sys, step: Step): Sys {
    match step
    case Tick(elapsed) => s.(clock := s.clock + elapsed)
    case Delete => s.(row := None, deletes := s.deletes + 1)
    case Die(pid) => s.Without(pid)
    case ApiRead(pid, team, username, password) =>
      if pid in s.procs || !Admitted(s.row, s.clock) then s
      else
        var sealed := Sealed(s.uid, s.nextSerial, Login(username, password));
        s.With(pid, Submitting(s.row, s.Now(), sealed, team, 1))
         .(nextSerial := s.nextSerial + 1,
           requests := s.requests[s.nextSerial := Request(team, username, password)])
    case ApiPut(pid) => if pid in s.procs && s.procs[pid].Submitting? then Submit(s, pid) else s
    case ApiReread(pid) =>
      if pid !in s.procs || !s.procs[pid].LostRace? then s
      else
        var p := s.procs[pid];
        if Admitted(s.row, s.clock)
        then s.With(pid, Submitting(s.row, s.Now(), p.sealed, p.team, p.attempt + 1))
        else s.Without(pid)
    case ConnectRead(pid) =>
      if pid in s.procs || s.row.None? then s else s.With(pid, Connecting(s.row, s.Now()))
    case ConnectPut(pid, inp) =>
      if pid in s.procs && s.procs[pid].Connecting? then Judge(s, pid, inp) else s
    case CheckRead(pid) => if pid in s.procs then s else s.With(pid, Checking(s.row, s.Now()))
    case CheckPut(pid, runId) =>
      if pid in s.procs && s.procs[pid].Checking? then Excuse(s, pid, runId) else s
    case JobRead(pid) =>
      if pid in s.procs || AuthorizeRun(s.uid, s.row).Denied? then s
      else s.With(pid, Running(s.row.value.creds, s.Now()))
    case LadderRead(pid) =>
      if pid !in s.procs || !s.procs[pid].Running? || s.row.None? then s
      else s.With(pid, Renewing(s.procs[pid].judged, s.procs[pid].first, s.row, s.Now()))
    case LadderPut(pid, evidence, session) =>
      if pid in s.procs && s.procs[pid].Renewing? then Renew(s, pid, evidence, session) else s
  }

  function Submit(s: Sys, pid: nat): Sys
    requires pid in s.procs && s.procs[pid].Submitting?
  {
    var p := s.procs[pid];
    var c := Submission(s.uid, p.team, p.sealed, p.seen);
    if PutOutcome(s.row, c, true) == PutConflict && p.attempt < PutAttempts
    then s.With(pid, LostRace(p.sealed, p.team, p.attempt))
    else TryPut(s, pid, c, Api, p.sealed, p.read, p.read, p.seen)
  }

  function Judge(s: Sys, pid: nat, inp: CT.Inputs): Sys
    requires pid in s.procs && s.procs[pid].Connecting?
  {
    var p := s.procs[pid];
    var d := CT.Decide(s.uid, p.seen, inp);
    if d.put.None? then s.Without(pid)
    else TryPut(s, pid, d.put.value, ConnectVerdict, CredsIn(p.seen), p.read, p.read, p.seen)
  }

  function Excuse(s: Sys, pid: nat, runId: Option<string>): Sys
    requires pid in s.procs && s.procs[pid].Checking?
  {
    var p := s.procs[pid];
    var d := CT.FailCheck(s.uid, p.seen, CT.ReadRecord, runId);
    if d.put.None? then s.Without(pid)
    else TryPut(s, pid, d.put.value, CheckVerdict, CredsIn(p.seen), p.read, p.read, p.seen)
  }

  function Renew(s: Sys, pid: nat, evidence: Evidence, session: Option<Blob>): Sys
    requires pid in s.procs && s.procs[pid].Renewing?
  {
    var p := s.procs[pid];
    if p.seen.None? then s.Without(pid)
    else
      var put := TenantRun.LadderPut(p.seen.value, evidence, session);
      if put.None? then s.Without(pid)
      else TryPut(s, pid, put.value, Ladder, p.judged, p.first, p.read, p.seen)
  }

  /** Any stored record, or none, and nobody at work. */
  predicate Init(s: Sys) {
    && s.procs == map[] && s.log == [] && s.deletes == 0 && s.requests == map[]
    && match s.row
       case None => s.submissions == []
       case Some(c) =>
         && c.ver.Some? && s.submissions == [c.creds]
         && (c.creds.Sealed? ==> c.creds.serial < s.nextSerial)
  }

  function Run(s: Sys, steps: seq<Step>): Sys {
    Fold(Next, s, steps)
  }

  // ---------------------------------------------------------------- what every write obeys

  /** A write with no deletion since its read met exactly the record it had read. */
  predicate NoLostUpdate(w: Write) { w.here.deletes == w.read.deletes ==> w.before == w.seen }

  /** A verdict or a session is stored with the credentials of the record it was read from;
      a bare check-failed record is only ever created over nothing. */
  predicate CarriesCreds(w: Write) {
    w.actor != Api ==>
      if w.seen.Some? then w.after.creds == w.seen.value.creds
      else w.actor == CheckVerdict && w.after.creds == NoBlob && w.before.None?
  }

  /** A connect verdict is about the credentials it stands beside. A ladder judged real
      ones, and has only the status, the class and the session to change. */
  predicate JudgesWhatItSaw(w: Write) {
    && (w.actor == ConnectVerdict ==> w.judged == w.after.creds != NoBlob)
    && (w.actor == Ladder ==>
          (&& w.judged != NoBlob && w.seen.Some?
           && w.after == w.seen.value.(status := w.after.status, lastError := w.after.lastError,
                                       session := w.after.session, ver := w.after.ver,
                                       updatedAt := w.now)
           && w.after.status in {w.seen.value.status, NeedsReconnect}))
  }

  /** A submission replaces only a record the in-flight guard lets go, and pends. */
  predicate Guarded(w: Write) {
    w.actor == Api ==>
      (&& w.after.status == Pending && w.after.creds == w.judged && w.after.session == NoBlob
       && (w.here.deletes == w.read.deletes ==> Admitted(w.before, w.now)))
  }

  /** A landed write carries the next version after the one its process read, and its time. */
  predicate Advances(w: Write) {
    && w.after.ver == Some(if w.seen.Some? && w.seen.value.ver.Some? then w.seen.value.ver.value + 1 else 1)
    && w.after.updatedAt == w.now
  }

  predicate Ordered(w: Write) {
    && w.first.submits <= w.read.submits <= w.here.submits
    && w.first.deletes <= w.read.deletes <= w.here.deletes
    && (w.here.deletes == w.read.deletes && w.seen.Some? ==> w.here.submits == w.read.submits)
  }

  predicate Lawful(w: Write) {
    NoLostUpdate(w) && CarriesCreds(w) && JudgesWhatItSaw(w) && Guarded(w) && Ordered(w) && Advances(w)
  }

  /** A verdict or session that landed although its record had been deleted since. */
  predicate Crossed(w: Write) { w.actor != Api && w.here.deletes != w.read.deletes }

  predicate Pure(log: seq<Write>) { forall i :: 0 <= i < |log| ==> !Crossed(log[i]) }

  /** Two records hold the same credentials exactly when no submission landed in between. */
  predicate SameCreds(a: Row, b: Row, none: bool) {
    a.Some? && b.Some? && a.value.creds != NoBlob && b.value.creds != NoBlob ==>
      (a.value.creds == b.value.creds <==> none)
  }

  predicate MarksTell(w: Write) {
    && SameCreds(w.before, w.seen, w.here.submits == w.read.submits)
    && (w.actor == Ladder && w.seen.Some? && w.seen.value.creds != NoBlob ==>
          (w.seen.value.creds == w.judged <==> w.read.submits == w.first.submits))
    && (w.actor == Ladder && w.first.deletes == w.read.deletes ==>
          w.seen.Some? && w.seen.value.creds != NoBlob)
  }

  /** Every landed write is lawful, and until the first crossed one the marks tell. */
  ghost predicate LawfulLog(log: seq<Write>) {
    forall i :: 0 <= i < |log| ==> Lawful(log[i]) && (Pure(log[..i]) ==> MarksTell(log[i]))
  }

  // ---------------------------------------------------------------- the invariant

  /** What a process knows from a read at `at`: until a deletion the record is only ever
      ahead, and if the version still matches, nothing at all has happened. */
  predicate Knows(s: Sys, seen: Row, at: Mark) {
    && at.submits <= |s.submissions| && at.deletes <= s.deletes
    && (seen.Some? ==> seen.value.ver.Some?)
    && (seen.Some? && at.deletes == s.deletes ==>
          (&& s.row.Some? && s.row.value.ver.Some?
           && seen.value.ver.value <= s.row.value.ver.value
           && (seen.value.ver == s.row.value.ver ==>
                 s.row == seen && at.submits == |s.submissions|)))
  }

  predicate ProcOk(s: Sys, p: Proc) {
    match p
    case Submitting(seen, read, _, _, _) => Knows(s, seen, read) && Admitted(seen, s.clock)
    case LostRace(_, _, _) => true
    case Connecting(seen, read) => Knows(s, seen, read) && seen.Some?
    case Checking(seen, read) => Knows(s, seen, read)
    case Running(judged, first) => judged != NoBlob && NotAhead(s, first)
    case Renewing(judged, first, seen, read) =>
      && judged != NoBlob && Knows(s, seen, read) && seen.Some?
      && first.submits <= read.submits && first.deletes <= read.deletes
  }

  predicate NotAhead(s: Sys, at: Mark) { at.submits <= |s.submissions| && at.deletes <= s.deletes }

  /** `creds` were the latest submitted when `at` was taken. */
  predicate LatestAt(s: Sys, creds: Blob, at: Mark) {
    creds != NoBlob ==> 0 < at.submits <= |s.submissions| && creds == s.submissions[at.submits - 1]
  }

  predicate LatestRowAt(s: Sys, seen: Row, at: Mark) {
    seen.Some? ==> LatestAt(s, seen.value.creds, at)
  }

  predicate HasCreds(row: Row) { row.Some? && row.value.creds != NoBlob }

  /** What a process's reads say about the submissions, while no write has crossed a deletion. */
  predicate HistoryOk(s: Sys, p: Proc) {
    match p
    case Submitting(seen, read, _, _, _) => LatestRowAt(s, seen, read)
    case LostRace(_, _, _) => true
    case Connecting(seen, read) => LatestRowAt(s, seen, read)
    case Checking(seen, read) => LatestRowAt(s, seen, read)
    case Running(judged, first) =>
      LatestAt(s, judged, first) && (first.deletes == s.deletes ==> HasCreds(s.row))
    case Renewing(judged, first, seen, read) =>
      && LatestAt(s, judged, first) && LatestRowAt(s, seen, read)
      && (first.deletes == read.deletes ==> HasCreds(seen))
  }

  predicate History(s: Sys) {
    LatestRowAt(s, s.row, s.Now()) && forall p :: p in s.procs ==> HistoryOk(s, s.procs[p])
  }

  function PendingBlob(p: Proc): Blob {
    match p
    case Submitting(_, _, sealed, _, _) => sealed
    case LostRace(sealed, _, _) => sealed
    case _ => NoBlob
  }

  /** No ciphertext is ever submitted twice. */
  predicate Unused(s: Sys, b: Blob) {
    b.Sealed? && b.serial < s.nextSerial && b !in s.submissions
  }

  predicate SubmissionsDistinct(s: Sys) {
    && (forall i, j :: 0 <= i < j < |s.submissions| ==> s.submissions[i] != s.submissions[j])
    && (forall b :: b in s.submissions && b.Sealed? ==> b.serial < s.nextSerial)
  }

  predicate PendingDistinct(s: Sys) {
    && (forall p :: p in s.procs ==>
          (s.procs[p].Submitting? || s.procs[p].LostRace? ==> Unused(s, PendingBlob(s.procs[p]))))
    && (forall p, q :: p in s.procs && q in s.procs && p != q ==>
          (PendingBlob(s.procs[p]) == NoBlob || PendingBlob(s.procs[p]) != PendingBlob(s.procs[q])))
  }

  predicate Valid(s: Sys) {
    && (s.row.Some? ==> s.row.value.ver.Some?)
    && SubmissionsDistinct(s) && PendingDistinct(s)
    && (forall p :: p in s.procs ==> ProcOk(s, s.procs[p]))
    && (Pure(s.log) ==> History(s))
  }

  // ---------------------------------------------------------------- steps that store nothing

  /** Same record, same history; time may have passed and one process may have moved. */
  predicate Quiet(s: Sys, t: Sys, pid: nat) {
    && t.row == s.row && t.submissions == s.submissions && t.deletes == s.deletes
    && t.log == s.log && s.clock <= t.clock && s.nextSerial <= t.nextSerial
    && (forall p :: p in t.procs && p != pid ==> p in s.procs && t.procs[p] == s.procs[p])
  }

  lemma QuietStepKeepsValid(s: Sys, t: Sys, pid: nat)
    requires Valid(s) && Quiet(s, t, pid)
    requires pid in t.procs ==> ProcOk(t, t.procs[pid])
    requires pid in t.procs && Pure(t.log) ==> HistoryOk(t, t.procs[pid])
    requires PendingDistinct(t)
    ensures Valid(t)
  {
    forall p | p in t.procs ensures ProcOk(t, t.procs[p]) {
      if p != pid { assert ProcOk(s, s.procs[p]); }
    }
    if Pure(t.log) {
      forall p | p in t.procs ensures HistoryOk(t, t.procs[p]) {
        if p != pid { assert HistoryOk(s, s.procs[p]); }
      }
    }
  }

  lemma KeepingBlobsKeepsDistinct(s: Sys, t: Sys, pid: nat)
    requires Valid(s) && Quiet(s, t, pid)
    requires pid in t.procs ==> (
      if t.procs[pid].Submitting? || t.procs[pid].LostRace?
      then pid in s.procs && (s.procs[pid].Submitting? || s.procs[pid].LostRace?)
           && PendingBlob(t.procs[pid]) == PendingBlob(s.procs[pid])
      else PendingBlob(t.procs[pid]) == NoBlob)
    ensures PendingDistinct(t)
  {
  }

  lemma FreshBlobKeepsDistinct(s: Sys, t: Sys, pid: nat)
    requires Valid(s) && Quiet(s, t, pid) && pid !in s.procs && pid in t.procs
    requires t.procs[pid].Submitting? && PendingBlob(t.procs[pid]).Sealed?
    requires PendingBlob(t.procs[pid]).serial == s.nextSerial < t.nextSerial
    ensures PendingDistinct(t)
  {
  }

  lemma TickKeepsValid(s: Sys, elapsed: nat)
    requires Valid(s)
    ensures Valid(Next(s, Tick(elapsed)))
  {
    var t := Next(s, Tick(elapsed));
    forall p | p in t.procs ensures ProcOk(t, t.procs[p]) { assert ProcOk(s, s.procs[p]); }
    if Pure(t.log) {
      forall p | p in t.procs ensures HistoryOk(t, t.procs[p]) { assert HistoryOk(s, s.procs[p]); }
    }
  }

  lemma ApiReadsKeepValid(s: Sys, step: Step)
    requires Valid(s) && (step.ApiRead? || step.ApiReread?)
    ensures Valid(Next(s, step)) && Next(s, step).log == s.log
  {
    var t := Next(s, step);
    if t != s {
      if step.ApiRead? { FreshBlobKeepsDistinct(s, t, step.pid); }
      else { KeepingBlobsKeepsDistinct(s, t, step.pid); }
      QuietStepKeepsValid(s, t, step.pid);
    }
  }

  lemma WorkerReadsKeepValid(s: Sys, step: Step)
    requires Valid(s)
    requires step.Die? || step.ConnectRead? || step.CheckRead? || step.JobRead? || step.LadderRead?
    ensures Valid(Next(s, step)) && Next(s, step).log == s.log
  {
    var t := Next(s, step);
    if t != s {
      if step.LadderRead? {
        var p := s.procs[step.pid];
        assert ProcOk(s, p) && (Pure(s.log) ==> HistoryOk(s, p));
        assert Knows(t, t.row, t.Now());
      }
      KeepingBlobsKeepsDistinct(s, t, step.pid);
      QuietStepKeepsValid(s, t, step.pid);
    }
  }

  lemma DeleteKeepsValid(s: Sys)
    requires Valid(s)
    ensures Valid(Next(s, Delete)) && Next(s, Delete).log == s.log
  {
    var t := Next(s, Delete);
    forall p | p in t.procs ensures ProcOk(t, t.procs[p]) { assert ProcOk(s, s.procs[p]); }
    if Pure(t.log) {
      forall p | p in t.procs ensures HistoryOk(t, t.procs[p]) { assert HistoryOk(s, s.procs[p]); }
    }
  }

  // ---------------------------------------------------------------- puts

  function Base(seen: Row): Option<nat> { if seen.Some? then seen.value.ver else None }

  /** What the four kinds of put have in common. */
  ghost predicate PutReady(s: Sys, pid: nat, c: Conn, actor: Actor, read: Mark, seen: Row) {
    && Valid(s) && pid in s.procs && Knows(s, seen, read) && c.ver == Base(seen)
    && (Pure(s.log) ==> LatestRowAt(s, seen, read))
    && (if actor == Api then s.procs[pid].Submitting? && c.creds == PendingBlob(s.procs[pid])
        else PendingBlob(s.procs[pid]) == NoBlob
             && c.creds == (if seen.Some? then seen.value.creds else NoBlob))
  }

  /** With no deletion since the read, the record a put lands on is the record it was read as. */
  lemma LandsOnWhatWasRead(s: Sys, c: Conn, read: Mark, seen: Row)
    requires Knows(s, seen, read) && c.ver == Base(seen) && CanPut(s.row, c)
    requires read.deletes == s.deletes
    ensures s.row == seen
    ensures seen.Some? ==> read.submits == |s.submissions|
  {
  }

  lemma PutKeepsKnowledge(s: Sys, t: Sys, c: Conn, seen: Row, at: Mark)
    requires Knows(s, seen, at) && CanPut(s.row, c)
    requires s.row.Some? ==> s.row.value.ver.Some?
    requires t.row == Some(Stored(c, s.clock)) && t.deletes == s.deletes
    requires t.submissions == s.submissions || t.submissions == s.submissions + [c.creds]
    ensures Knows(t, seen, at)
  {
  }

  lemma PutKeepsProcs(s: Sys, t: Sys, pid: nat, c: Conn)
    requires Valid(s) && CanPut(s.row, c)
    requires t.row == Some(Stored(c, s.clock)) && t.deletes == s.deletes && t.clock == s.clock
    requires t.submissions == s.submissions || t.submissions == s.submissions + [c.creds]
    requires t.procs == s.procs - {pid}
    ensures forall p :: p in t.procs ==> ProcOk(t, t.procs[p])
  {
    forall p | p in t.procs ensures ProcOk(t, t.procs[p]) {
      var q := s.procs[p];
      assert t.procs[p] == q && ProcOk(s, q);
      match q
      case Submitting(seen, read, _, _, _) => PutKeepsKnowledge(s, t, c, seen, read);
      case Connecting(seen, read) => PutKeepsKnowledge(s, t, c, seen, read);
      case Checking(seen, read) => PutKeepsKnowledge(s, t, c, seen, read);
      case Renewing(_, _, seen, read) => PutKeepsKnowledge(s, t, c, seen, read);
      case _ =>
    }
  }

  lemma SubmissionKeepsDistinct(s: Sys, t: Sys, pid: nat)
    requires Valid(s) && pid in s.procs && s.procs[pid].Submitting?
    requires t.submissions == s.submissions + [PendingBlob(s.procs[pid])]
    requires t.nextSerial == s.nextSerial && t.procs == s.procs - {pid}
    ensures SubmissionsDistinct(t) && PendingDistinct(t)
  {
    var b := PendingBlob(s.procs[pid]);
    assert Unused(s, b);
    forall p | p in t.procs && (t.procs[p].Submitting? || t.procs[p].LostRace?)
      ensures Unused(t, PendingBlob(t.procs[p]))
    {
      assert Unused(s, PendingBlob(s.procs[p]));
      assert PendingBlob(s.procs[p]) != PendingBlob(s.procs[pid]);
    }
  }

  lemma PutKeepsHistory(s: Sys, t: Sys, pid: nat, c: Conn, actor: Actor, read: Mark, seen: Row)
    requires PutReady(s, pid, c, actor, read, seen) && CanPut(s.row, c)
    requires Pure(s.log) && (actor == Api || read.deletes == s.deletes)
    requires t.row == Some(Stored(c, s.clock)) && t.deletes == s.deletes
    requires t.submissions == if actor == Api then s.submissions + [c.creds] else s.submissions
    requires t.procs == s.procs - {pid}
    ensures History(t)
  {
    if actor != Api { LandsOnWhatWasRead(s, c, read, seen); }
    else { assert Unused(s, PendingBlob(s.procs[pid])); }
    forall p | p in t.procs ensures HistoryOk(t, t.procs[p]) {
      assert t.procs[p] == s.procs[p] && HistoryOk(s, s.procs[p]) && ProcOk(s, s.procs[p]);
    }
  }

  lemma PutKeepsValid(s: Sys, pid: nat, c: Conn, actor: Actor, judged: Blob, first: Mark,
                      read: Mark, seen: Row)
    requires PutReady(s, pid, c, actor, read, seen)
    ensures Valid(TryPut(s, pid, c, actor, judged, first, read, seen))
  {
    var t := TryPut(s, pid, c, actor, judged, first, read, seen);
    if PutOutcome(s.row, c, true) != PutOk {
      KeepingBlobsKeepsDistinct(s, t, pid);
      QuietStepKeepsValid(s, t, pid);
    } else {
      PutKeepsProcs(s, t, pid, c);
      if actor == Api { SubmissionKeepsDistinct(s, t, pid); }
      if Pure(t.log) {
        var w := t.log[|s.log|];
        assert t.log[..|s.log|] == s.log && !Crossed(w);
        assert Pure(s.log) by {
          forall i | 0 <= i < |s.log| ensures !Crossed(s.log[i]) { assert s.log[i] == t.log[i]; }
        }
        PutKeepsHistory(s, t, pid, c, actor, read, seen);
      }
    }
  }

  // ---------------------------------------------------------------- each kind of write

  /** What a landed write must satisfy to enter a lawful log. */
  ghost predicate Joins(s: Sys, w: Write) { Lawful(w) && (Pure(s.log) ==> MarksTell(w)) }

  function Landed(s: Sys, c: Conn, actor: Actor, judged: Blob, first: Mark, read: Mark, seen: Row): Write {
    Write(actor, judged, first, read, seen, s.row, Stored(c, s.clock), s.Now(), s.clock)
  }

  lemma BlobsTellMarks(s: Sys, a: Blob, at: Mark, b: Blob, bt: Mark)
    requires Valid(s) && LatestAt(s, a, at) && LatestAt(s, b, bt) && a != NoBlob && b != NoBlob
    ensures a == b <==> at.submits == bt.submits
  {
    var i, j := at.submits - 1, bt.submits - 1;
    if i < j { assert s.submissions[i] != s.submissions[j]; }
    if j < i { assert s.submissions[j] != s.submissions[i]; }
  }

  lemma RowsTellMarks(s: Sys, seen: Row, read: Mark)
    requires Valid(s) && Pure(s.log) && LatestRowAt(s, seen, read)
    ensures SameCreds(s.row, seen, |s.submissions| == read.submits)
  {
    if HasCreds(s.row) && HasCreds(seen) {
      BlobsTellMarks(s, s.row.value.creds, s.Now(), seen.value.creds, read);
    }
  }

  lemma SubmissionJoins(s: Sys, pid: nat)
    requires Valid(s) && pid in s.procs && s.procs[pid].Submitting?
    ensures var p := s.procs[pid];
      var c := Submission(s.uid, p.team, p.sealed, p.seen);
      && PutReady(s, pid, c, Api, p.read, p.seen)
      && (CanPut(s.row, c) ==> Joins(s, Landed(s, c, Api, p.sealed, p.read, p.read, p.seen)))
  {
    var p := s.procs[pid];
    assert ProcOk(s, p) && (Pure(s.log) ==> HistoryOk(s, p));
    var c := Submission(s.uid, p.team, p.sealed, p.seen);
    if CanPut(s.row, c) {
      if p.read.deletes == s.deletes { LandsOnWhatWasRead(s, c, p.read, p.seen); }
      if Pure(s.log) { RowsTellMarks(s, p.seen, p.read); }
    }
  }

  lemma VerdictJoins(s: Sys, pid: nat, inp: CT.Inputs)
    requires Valid(s) && pid in s.procs && s.procs[pid].Connecting?
    ensures var p := s.procs[pid];
      var d := CT.Decide(s.uid, p.seen, inp);
      d.put.Some? ==>
        && PutReady(s, pid, d.put.value, ConnectVerdict, p.read, p.seen)
        && (CanPut(s.row, d.put.value) ==>
              Joins(s, Landed(s, d.put.value, ConnectVerdict, CredsIn(p.seen), p.read, p.read, p.seen)))
  {
    var p := s.procs[pid];
    assert ProcOk(s, p) && (Pure(s.log) ==> HistoryOk(s, p));
    var d := CT.Decide(s.uid, p.seen, inp);
    if d.put.Some? {
      CT.DecisionsKeepCredentials(s.uid, p.seen, inp);
      if p.read.deletes == s.deletes && CanPut(s.row, d.put.value) {
        LandsOnWhatWasRead(s, d.put.value, p.read, p.seen);
      }
      if Pure(s.log) { RowsTellMarks(s, p.seen, p.read); }
    }
  }

  lemma ExcuseJoins(s: Sys, pid: nat, runId: Option<string>)
    requires Valid(s) && pid in s.procs && s.procs[pid].Checking?
    ensures var p := s.procs[pid];
      var d := CT.FailCheck(s.uid, p.seen, CT.ReadRecord, runId);
      d.put.Some? ==>
        && PutReady(s, pid, d.put.value, CheckVerdict, p.read, p.seen)
        && (CanPut(s.row, d.put.value) ==>
              Joins(s, Landed(s, d.put.value, CheckVerdict, CredsIn(p.seen), p.read, p.read, p.seen)))
  {
    var p := s.procs[pid];
    assert ProcOk(s, p) && (Pure(s.log) ==> HistoryOk(s, p));
    var d := CT.FailCheck(s.uid, p.seen, CT.ReadRecord, runId);
    CT.FailedCheckIsWhole(s.uid, p.seen, CT.ReadRecord, runId);
    if d.put.Some? && CanPut(s.row, d.put.value) {
      if p.read.deletes == s.deletes { LandsOnWhatWasRead(s, d.put.value, p.read, p.seen); }
      if Pure(s.log) { RowsTellMarks(s, p.seen, p.read); }
    }
  }

  /** What the marks say of a ladder's write, while no write has crossed a deletion. */
  lemma SessionTells(s: Sys, pid: nat, c: Conn)
    requires Valid(s) && Pure(s.log) && pid in s.procs && s.procs[pid].Renewing?
    ensures var p := s.procs[pid]; MarksTell(Landed(s, c, Ladder, p.judged, p.first, p.read, p.seen))
  {
    var p := s.procs[pid];
    assert ProcOk(s, p) && HistoryOk(s, p);
    RowsTellMarks(s, p.seen, p.read);
    if HasCreds(p.seen) { BlobsTellMarks(s, p.seen.value.creds, p.read, p.judged, p.first); }
  }

  lemma SessionJoins(s: Sys, pid: nat, e: Evidence, session: Option<Blob>)
    requires Valid(s) && pid in s.procs && s.procs[pid].Renewing?
    ensures var p := s.procs[pid];
      p.seen.Some? &&
      var put := TenantRun.LadderPut(p.seen.value, e, session);
      put.Some? ==>
        && PutReady(s, pid, put.value, Ladder, p.read, p.seen)
        && (CanPut(s.row, put.value) ==>
              Joins(s, Landed(s, put.value, Ladder, p.judged, p.first, p.read, p.seen)))
  {
    var p := s.procs[pid];
    assert ProcOk(s, p) && (Pure(s.log) ==> HistoryOk(s, p));
    var put := TenantRun.LadderPut(p.seen.value, e, session);
    if put.Some? && CanPut(s.row, put.value) {
      if p.read.deletes == s.deletes { LandsOnWhatWasRead(s, put.value, p.read, p.seen); }
      if Pure(s.log) { SessionTells(s, pid, put.value); }
    }
  }

  // ---------------------------------------------------------------- every run

  lemma LogGrows(log: seq<Write>, w: Write)
    requires LawfulLog(log) && Lawful(w) && (Pure(log) ==> MarksTell(w))
    ensures LawfulLog(log + [w])
  {
    var more := log + [w];
    forall i | 0 <= i < |more| ensures Lawful(more[i]) && (Pure(more[..i]) ==> MarksTell(more[i])) {
      if i < |log| { assert more[..i] == log[..i] && more[i] == log[i]; }
      else { assert more[..i] == log; }
    }
  }

  lemma PutStep(s: Sys, pid: nat, c: Conn, actor: Actor, judged: Blob, first: Mark, read: Mark, seen: Row)
    requires LawfulLog(s.log) && PutReady(s, pid, c, actor, read, seen)
    requires CanPut(s.row, c) ==> Joins(s, Landed(s, c, actor, judged, first, read, seen))
    ensures var t := TryPut(s, pid, c, actor, judged, first, read, seen);
      Valid(t) && LawfulLog(t.log)
  {
    PutKeepsValid(s, pid, c, actor, judged, first, read, seen);
    if PutOutcome(s.row, c, true) == PutOk { LogGrows(s.log, Landed(s, c, actor, judged, first, read, seen)); }
  }

  lemma SubmitStep(s: Sys, pid: nat)
    requires Valid(s) && LawfulLog(s.log) && pid in s.procs && s.procs[pid].Submitting?
    ensures Valid(Submit(s, pid)) && LawfulLog(Submit(s, pid).log)
  {
    var p := s.procs[pid];
    var c := Submission(s.uid, p.team, p.sealed, p.seen);
    if PutOutcome(s.row, c, true) == PutConflict && p.attempt < PutAttempts {
      var t := Submit(s, pid);
      KeepingBlobsKeepsDistinct(s, t, pid);
      QuietStepKeepsValid(s, t, pid);
    } else {
      SubmissionJoins(s, pid);
      PutStep(s, pid, c, Api, p.sealed, p.read, p.read, p.seen);
    }
  }

  lemma GiveUpStep(s: Sys, pid: nat)
    requires Valid(s)
    ensures Valid(s.Without(pid))
  {
    KeepingBlobsKeepsDistinct(s, s.Without(pid), pid);
    QuietStepKeepsValid(s, s.Without(pid), pid);
  }

  lemma JudgeStep(s: Sys, pid: nat, inp: CT.Inputs)
    requires Valid(s) && LawfulLog(s.log) && pid in s.procs && s.procs[pid].Connecting?
    ensures Valid(Judge(s, pid, inp)) && LawfulLog(Judge(s, pid, inp).log)
  {
    var p := s.procs[pid];
    var d := CT.Decide(s.uid, p.seen, inp);
    if d.put.None? { GiveUpStep(s, pid); }
    else {
      VerdictJoins(s, pid, inp);
      PutStep(s, pid, d.put.value, ConnectVerdict, CredsIn(p.seen), p.read, p.read, p.seen);
    }
  }

  lemma ExcuseStep(s: Sys, pid: nat, runId: Option<string>)
    requires Valid(s) && LawfulLog(s.log) && pid in s.procs && s.procs[pid].Checking?
    ensures Valid(Excuse(s, pid, runId)) && LawfulLog(Excuse(s, pid, runId).log)
  {
    var p := s.procs[pid];
    var d := CT.FailCheck(s.uid, p.seen, CT.ReadRecord, runId);
    if d.put.None? { GiveUpStep(s, pid); }
    else {
      ExcuseJoins(s, pid, runId);
      PutStep(s, pid, d.put.value, CheckVerdict, CredsIn(p.seen), p.read, p.read, p.seen);
    }
  }

  lemma RenewStep(s: Sys, pid: nat, e: Evidence, session: Option<Blob>)
    requires Valid(s) && LawfulLog(s.log) && pid in s.procs && s.procs[pid].Renewing?
    ensures Valid(Renew(s, pid, e, session)) && LawfulLog(Renew(s, pid, e, session).log)
  {
    var p := s.procs[pid];
    SessionJoins(s, pid, e, session);
    var put := TenantRun.LadderPut(p.seen.value, e, session);
    if put.None? { GiveUpStep(s, pid); }
    else { PutStep(s, pid, put.value, Ladder, p.judged, p.first, p.read, p.seen); }
  }

  lemma StepKeepsLawful(s: Sys, step: Step)
    requires Valid(s) && LawfulLog(s.log)
    ensures Valid(Next(s, step)) && LawfulLog(Next(s, step).log)
  {
    match step
    case Tick(elapsed) => TickKeepsValid(s, elapsed);
    case Delete => DeleteKeepsValid(s);
    case ApiRead(_, _, _, _) => ApiReadsKeepValid(s, step);
    case ApiReread(_) => ApiReadsKeepValid(s, step);
    case ApiPut(pid) => if pid in s.procs && s.procs[pid].Submitting? { SubmitStep(s, pid); }
    case ConnectPut(pid, inp) => if pid in s.procs && s.procs[pid].Connecting? { JudgeStep(s, pid, inp); }
    case CheckPut(pid, runId) => if pid in s.procs && s.procs[pid].Checking? { ExcuseStep(s, pid, runId); }
    case LadderPut(pid, e, session) =>
      if pid in s.procs && s.procs[pid].Renewing? { RenewStep(s, pid, e, session); }
    case _ => WorkerReadsKeepValid(s, step);
  }

  lemma {:induction false} EveryRunIsLawful(s: Sys, steps: seq<Step>)
    requires Init(s)
    ensures Valid(Run(s, steps)) && LawfulLog(Run(s, steps).log)
  {
    if steps != [] {
      EveryRunIsLawful(s, steps[..|steps| - 1]);
      StepKeepsLawful(Run(s, steps[..|steps| - 1]), steps[|steps| - 1]);
    }
  }

  /** Deletions are counted along the log. */
  ghost predicate LogAges(s: Sys) {
    && (forall i :: 0 <= i < |s.log| ==> s.log[i].here.deletes <= s.deletes)
    && (forall i, j :: 0 <= i < j < |s.log| ==> s.log[i].here.deletes <= s.log[j].here.deletes)
  }

  lemma StepAges(s: Sys, step: Step)
    requires LogAges(s)
    ensures LogAges(Next(s, step))
  {
    StepLogs(s, step);
    var t := Next(s, step);
    assert forall i :: 0 <= i < |s.log| ==> t.log[i] == s.log[i];
  }

  /** A step adds at most one write to the log, dated by the deletions so far. */
  lemma StepLogs(s: Sys, step: Step)
    ensures var t := Next(s, step);
      && t.deletes >= s.deletes
      && (t.log == s.log
          || (|t.log| == |s.log| + 1 && t.log[..|s.log|] == s.log
              && t.log[|s.log|].here.deletes == s.deletes == t.deletes))
  {
  }

  lemma {:induction false} RunAges(s: Sys, steps: seq<Step>)
    requires Init(s)
    ensures LogAges(Run(s, steps))
  {
    if steps != [] {
      RunAges(s, steps[..|steps| - 1]);
      StepAges(Run(s, steps[..|steps| - 1]), steps[|steps| - 1]);
    }
  }

  /** Neither a connect verdict nor a session can lose anything another writer stored since
      it read the record, unless the tenant was deleted in between: it lands on the very
      record it read, and leaves the sealed credentials as they were. */
  lemma WritersKeepTheCredentials(s: Sys, steps: seq<Step>, i: nat)
    requires Init(s) && i < |Run(s, steps).log| && Run(s, steps).log[i].actor != Api
    ensures var w := Run(s, steps).log[i];
      && (w.here.deletes == w.read.deletes ==> w.before == w.seen)
      && (w.before.Some? && w.after.creds != w.before.value.creds ==> w.read.deletes < w.here.deletes)
      && (w.before.None? ==> w.after.creds == NoBlob || w.read.deletes < w.here.deletes)
  {
    EveryRunIsLawful(s, steps);
    assert Lawful(Run(s, steps).log[i]);
  }

  /** Exactly when credentials are replaced by a verdict or a session: a submission landed
      after its read. With the lemma above, that takes a deletion as well. */
  lemma CredentialsChangeExactlyOnSubmission(s: Sys, steps: seq<Step>, i: nat)
    requires Init(s) && i < |Run(s, steps).log| && Run(s, steps).log[i].actor != Api
    requires Pure(Run(s, steps).log[..i])
    ensures var w := Run(s, steps).log[i];
      w.before.Some? && w.before.value.creds != NoBlob && w.after.creds != NoBlob ==>
        (w.after.creds == w.before.value.creds <==> w.here.submits == w.read.submits)
  {
    EveryRunIsLawful(s, steps);
    assert Lawful(Run(s, steps).log[i]) && MarksTell(Run(s, steps).log[i]);
  }

  /** A connect verdict always stands beside the credentials its task opened and signed in
      with, and the record it was read from had some. */
  lemma VerdictStandsBesideWhatItJudged(s: Sys, steps: seq<Step>, i: nat)
    requires Init(s) && i < |Run(s, steps).log| && Run(s, steps).log[i].actor == ConnectVerdict
    ensures var w := Run(s, steps).log[i]; w.after.creds == w.judged != NoBlob
  {
    EveryRunIsLawful(s, steps);
    assert Lawful(Run(s, steps).log[i]);
  }

  /** A ladder's session or demotion stands beside the credentials the run judged exactly
      when no submission landed after the run's first read. No deletion may lie between that
      read and the write, and no earlier write may have landed across one. */
  lemma SessionStandsBesideWhatItJudged(s: Sys, steps: seq<Step>, i: nat)
    requires Init(s) && i < |Run(s, steps).log| && Pure(Run(s, steps).log[..i])
    requires var w := Run(s, steps).log[i]; w.actor == Ladder && w.here.deletes == w.first.deletes
    ensures var w := Run(s, steps).log[i];
      && (w.after.creds == w.judged <==> w.here.submits == w.first.submits)
      && w.before.Some? && w.after.lastRun == w.before.value.lastRun
      && w.after.team == w.before.value.team && w.after.creds == w.before.value.creds
  {
    EveryRunIsLawful(s, steps);
    var log := Run(s, steps).log;
    assert Lawful(log[i]) && MarksTell(log[i]);
  }

  /** Until a tenant is first deleted, no write has crossed a deletion. */
  lemma PureUntilTheFirstDeletion(s: Sys, steps: seq<Step>, i: nat)
    requires Init(s) && i < |Run(s, steps).log| && Run(s, steps).log[i].here.deletes == 0
    ensures Pure(Run(s, steps).log[..i])
    ensures Run(s, steps).log[i].first.deletes == 0
  {
    EveryRunIsLawful(s, steps);
    RunAges(s, steps);
    var log := Run(s, steps).log;
    assert Lawful(log[i]);
    assert forall j :: 0 <= j < i ==> Lawful(log[j]) && log[j].here.deletes <= log[i].here.deletes;
  }

  /** The API never replaces a record whose verification is still in flight, and stores
      exactly the credentials it sealed, under the team its own request was made for. */
  lemma SubmissionsRespectTheGuard(s: Sys, steps: seq<Step>, i: nat)
    requires Init(s) && i < |Run(s, steps).log| && Run(s, steps).log[i].actor == Api
    ensures var w := Run(s, steps).log[i];
      && w.after.creds == w.judged && w.after.status == Pending
      && (w.here.deletes == w.read.deletes && w.before.Some? ==>
            (&& !RefusesSubmission(w.before.value, w.now)
             && (w.before.value.status == Pending ==> w.now - w.before.value.updatedAt >= InFlightWindow)))
    ensures var t := Run(s, steps);
      var w := t.log[i];
      && w.after.creds.Sealed? && w.after.creds.serial in t.requests
      && w.after.team == t.requests[w.after.creds.serial].team
  {
    SubmissionsStoreTheirOwnRequest(s, steps, i);
    EveryRunIsLawful(s, steps);
    assert Lawful(Run(s, steps).log[i]);
  }

  // ---------------------------------------------------------------- what a submission stores

  /** The record one submission asks for, and nothing of any record before it. */
  function Asked(uid: UserId, serial: nat, req: Request, now: int, ver: Option<nat>): Conn {
    Conn(uid, req.team, "", "", Pending, NoClass, None, 0, now,
         Sealed(uid, serial, Login(req.username, req.password)), NoBlob, ver)
  }

  predicate StoresARequest(s: Sys, w: Write) {
    w.actor == Api ==>
      && w.after.creds.Sealed? && w.after.creds.serial in s.requests
      && w.after == Asked(s.uid, w.after.creds.serial, s.requests[w.after.creds.serial], w.now, w.after.ver)
  }

  /** A submission still under way carries what it was asked. */
  predicate CarriesItsRequest(s: Sys, p: Proc) {
    match p
    case Submitting(_, _, sealed, team, _) => IsRequest(s, sealed, team)
    case LostRace(sealed, team, _) => IsRequest(s, sealed, team)
    case _ => true
  }

  predicate IsRequest(s: Sys, sealed: Blob, team: string) {
    && sealed.Sealed? && sealed.owner == s.uid && sealed.serial in s.requests
    && var req := s.requests[sealed.serial];
       req.team == team && sealed.plain == Login(req.username, req.password)
  }

  ghost predicate RequestsKept(s: Sys) {
    && (forall n :: n in s.requests ==> n < s.nextSerial)
    && (forall p :: p in s.procs ==> CarriesItsRequest(s, s.procs[p]))
    && (forall i :: 0 <= i < |s.log| ==> StoresARequest(s, s.log[i]))
  }

  lemma TryPutKeepsRequests(s: Sys, pid: nat, c: Conn, actor: Actor, judged: Blob, first: Mark,
                            read: Mark, seen: Row)
    requires RequestsKept(s)
    requires actor == Api ==> StoresARequest(s, Landed(s, c, actor, judged, first, read, seen))
    ensures var t := TryPut(s, pid, c, actor, judged, first, read, seen); RequestsKept(t) && t.uid == s.uid
  {
    var t := TryPut(s, pid, c, actor, judged, first, read, seen);
    forall p | p in t.procs ensures CarriesItsRequest(t, t.procs[p]) {
      assert t.procs[p] == s.procs[p] && CarriesItsRequest(s, s.procs[p]);
    }
    forall i | 0 <= i < |t.log| ensures StoresARequest(t, t.log[i]) {
      if i < |s.log| { assert t.log[i] == s.log[i] && StoresARequest(s, s.log[i]); }
    }
  }

  /** Steps that store nothing and ask for nothing new. */
  lemma MovingKeepsRequests(s: Sys, t: Sys, pid: nat)
    requires RequestsKept(s) && t.uid == s.uid && t.requests == s.requests && t.log == s.log
    requires t.nextSerial == s.nextSerial
    requires forall p :: p in t.procs && p != pid ==> p in s.procs && t.procs[p] == s.procs[p]
    requires pid in t.procs ==> CarriesItsRequest(t, t.procs[pid])
    ensures RequestsKept(t)
  {
    forall p | p in t.procs ensures CarriesItsRequest(t, t.procs[p]) {
      if p != pid { assert CarriesItsRequest(s, s.procs[p]); }
    }
    forall i | 0 <= i < |t.log| ensures StoresARequest(t, t.log[i]) { assert StoresARequest(s, s.log[i]); }
  }

  lemma AskingKeepsRequests(s: Sys, pid: nat, team: string, username: string, password: string)
    requires RequestsKept(s)
    ensures var t := Next(s, ApiRead(pid, team, username, password)); RequestsKept(t) && t.uid == s.uid
  {
    var t := Next(s, ApiRead(pid, team, username, password));
    if t != s {
      forall p | p in t.procs ensures CarriesItsRequest(t, t.procs[p]) {
        if p != pid { assert CarriesItsRequest(s, s.procs[p]); }
      }
      forall i | 0 <= i < |t.log| ensures StoresARequest(t, t.log[i]) { assert StoresARequest(s, s.log[i]); }
    }
  }

  lemma SubmitKeepsRequests(s: Sys, pid: nat)
    requires RequestsKept(s) && pid in s.procs && s.procs[pid].Submitting?
    ensures RequestsKept(Submit(s, pid)) && Submit(s, pid).uid == s.uid
  {
    var p := s.procs[pid];
    assert CarriesItsRequest(s, p);
    var c := Submission(s.uid, p.team, p.sealed, p.seen);
    if PutOutcome(s.row, c, true) == PutConflict && p.attempt < PutAttempts {
      MovingKeepsRequests(s, Submit(s, pid), pid);
    } else {
      TryPutKeepsRequests(s, pid, c, Api, p.sealed, p.read, p.read, p.seen);
    }
  }

  lemma JudgeKeepsRequests(s: Sys, pid: nat, inp: CT.Inputs)
    requires RequestsKept(s) && pid in s.procs && s.procs[pid].Connecting?
    ensures RequestsKept(Judge(s, pid, inp)) && Judge(s, pid, inp).uid == s.uid
  {
    var p := s.procs[pid];
    var d := CT.Decide(s.uid, p.seen, inp);
    MovingKeepsRequests(s, s.Without(pid), pid);
    if d.put.Some? {
      TryPutKeepsRequests(s, pid, d.put.value, ConnectVerdict, CredsIn(p.seen), p.read, p.read, p.seen);
    }
  }

  lemma ExcuseKeepsRequests(s: Sys, pid: nat, runId: Option<string>)
    requires RequestsKept(s) && pid in s.procs && s.procs[pid].Checking?
    ensures RequestsKept(Excuse(s, pid, runId)) && Excuse(s, pid, runId).uid == s.uid
  {
    var p := s.procs[pid];
    var d := CT.FailCheck(s.uid, p.seen, CT.ReadRecord, runId);
    MovingKeepsRequests(s, s.Without(pid), pid);
    if d.put.Some? {
      TryPutKeepsRequests(s, pid, d.put.value, CheckVerdict, CredsIn(p.seen), p.read, p.read, p.seen);
    }
  }

  lemma RenewKeepsRequests(s: Sys, pid: nat, e: Evidence, session: Option<Blob>)
    requires RequestsKept(s) && pid in s.procs && s.procs[pid].Renewing?
    ensures RequestsKept(Renew(s, pid, e, session)) && Renew(s, pid, e, session).uid == s.uid
  {
    var p := s.procs[pid];
    MovingKeepsRequests(s, s.Without(pid), pid);
    if p.seen.Some? {
      var put := TenantRun.LadderPut(p.seen.value, e, session);
      if put.Some? { TryPutKeepsRequests(s, pid, put.value, Ladder, p.judged, p.first, p.read, p.seen); }
    }
  }

  lemma ReadsKeepRequests(s: Sys, step: Step)
    requires RequestsKept(s)
    requires step.Die? || step.ApiReread? || step.ConnectRead? || step.CheckRead? || step.JobRead? || step.LadderRead?
    ensures RequestsKept(Next(s, step)) && Next(s, step).uid == s.uid
  {
    if step.pid in s.procs { assert CarriesItsRequest(s, s.procs[step.pid]); }
    MovingKeepsRequests(s, Next(s, step), step.pid);
  }

  lemma StepKeepsRequests(s: Sys, step: Step)
    requires RequestsKept(s)
    ensures RequestsKept(Next(s, step)) && Next(s, step).uid == s.uid
  {
    match step
    case Tick(_) => MovingKeepsRequests(s, Next(s, step), 0);
    case Delete => MovingKeepsRequests(s, Next(s, step), 0);
    case ApiRead(pid, team, username, password) => AskingKeepsRequests(s, pid, team, username, password);
    case ApiPut(pid) => if pid in s.procs && s.procs[pid].Submitting? { SubmitKeepsRequests(s, pid); }
    case ConnectPut(pid, inp) =>
      if pid in s.procs && s.procs[pid].Connecting? { JudgeKeepsRequests(s, pid, inp); }
    case CheckPut(pid, runId) =>
      if pid in s.procs && s.procs[pid].Checking? { ExcuseKeepsRequests(s, pid, runId); }
    case LadderPut(pid, e, session) =>
      if pid in s.procs && s.procs[pid].Renewing? { RenewKeepsRequests(s, pid, e, session); }
    case _ => ReadsKeepRequests(s, step);
  }

  lemma {:induction false} RunKeepsRequests(s: Sys, steps: seq<Step>)
    requires Init(s)
    ensures RequestsKept(Run(s, steps)) && Run(s, steps).uid == s.uid
  {
    if steps != [] {
      var init := Run(s, steps[..|steps| - 1]);
      RunKeepsRequests(s, steps[..|steps| - 1]);
      StepKeepsRequests(init, steps[|steps| - 1]);
    }
  }

  /** Over every run, a submission that lands, after however many lost races, leaves exactly
      the record its own request asked for: that request's team and credentials, pending, with
      no class, stamp, account, session or moment of verification of any earlier record. */
  lemma SubmissionsStoreTheirOwnRequest(s: Sys, steps: seq<Step>, i: nat)
    requires Init(s) && i < |Run(s, steps).log| && Run(s, steps).log[i].actor == Api
    ensures var t := Run(s, steps);
      var w := t.log[i];
      && w.after.creds.Sealed? && w.after.creds.serial in t.requests
      && w.after == Asked(s.uid, w.after.creds.serial, t.requests[w.after.creds.serial], w.now, w.after.ver)
  {
    RunKeepsRequests(s, steps);
    assert StoresARequest(Run(s, steps), Run(s, steps).log[i]);
  }

  /** A submission is let in exactly when no verification is under way on the record, counted
      for ten minutes, and no check that did not finish is less than a minute old. */
  lemma SubmissionIsLetInExactly(s: Sys, pid: nat, team: string, username: string, password: string)
    requires pid !in s.procs
    ensures pid in Next(s, ApiRead(pid, team, username, password)).procs <==>
      (s.row.None? ||
       var age := s.clock - s.row.value.updatedAt;
       && (s.row.value.status == Pending ==> age >= 10 * 60)
       && (s.row.value.status in {Interrupted, CheckFailed} ==> age >= 60))
  {
  }

  /** Versions count: with no deletion in between, a write's version is one more than that of
      the record it replaced, and every write is dated when it lands. */
  lemma WritesAdvanceTheVersion(s: Sys, steps: seq<Step>, i: nat)
    requires Init(s) && i < |Run(s, steps).log|
    ensures var w := Run(s, steps).log[i];
      && w.after.updatedAt == w.now && w.after.ver.Some?
      && (w.here.deletes == w.read.deletes ==>
            w.after.ver == Some(if w.before.Some? && w.before.value.ver.Some? then w.before.value.ver.value + 1 else 1))
  {
    EveryRunIsLawful(s, steps);
    assert Lawful(Run(s, steps).log[i]);
  }

  /** Every writer can write: with nothing in between, a connect task stores its decision, a
      check its excuse and a job's ladder its session or its verdict, each over the record it
      read; and a submission that is let in stores its own. */
  lemma UninterruptedVerdictLands(s: Sys, pid: nat, inp: CT.Inputs)
    requires pid !in s.procs && s.row.Some? && s.row.value.user != "" && s.row.value.ver.Some?
    requires CT.Decide(s.uid, s.row, inp).put.Some?
    ensures var t := Next(Next(s, ConnectRead(pid)), ConnectPut(pid, inp));
      t.row == Some(Stored(CT.Decide(s.uid, s.row, inp).put.value, s.clock)) && pid !in t.procs
  {
    CT.DecisionsKeepCredentials(s.uid, s.row, inp);
  }

  lemma UninterruptedCheckLands(s: Sys, pid: nat, runId: Option<string>)
    requires pid !in s.procs && s.uid != ""
    requires s.row.Some? ==> s.row.value.user == s.uid && s.row.value.ver.Some?
    ensures var t := Next(Next(s, CheckRead(pid)), CheckPut(pid, runId));
      && t.row.Some? && t.row.value.status == CheckFailed && pid !in t.procs
      && t.row.value.creds == CredsIn(s.row)
  {
  }

  lemma UninterruptedLadderLands(s: Sys, pid: nat, e: Evidence, session: Option<Blob>)
    requires pid !in s.procs && AuthorizeRun(s.uid, s.row).Granted? && s.uid != "" && s.row.value.ver.Some?
    requires TenantRun.LadderPut(s.row.value, e, session).Some?
    ensures var t := Next(Next(Next(s, JobRead(pid)), LadderRead(pid)), LadderPut(pid, e, session));
      && t.row == Some(Stored(TenantRun.LadderPut(s.row.value, e, session).value, s.clock)) && pid !in t.procs
  {
    var s1 := s.With(pid, Running(s.row.value.creds, s.Now()));
    assert Next(s, JobRead(pid)) == s1;
    HeldRecordIsRenewed(s1, pid, e, session);
  }

  lemma HeldRecordIsRenewed(s: Sys, pid: nat, e: Evidence, session: Option<Blob>)
    requires pid in s.procs && s.procs[pid].Running?
    requires s.row.Some? && s.row.value.user != "" && s.row.value.ver.Some?
    requires TenantRun.LadderPut(s.row.value, e, session).Some?
    ensures var t := Next(Next(s, LadderRead(pid)), LadderPut(pid, e, session));
      && t.row == Some(Stored(TenantRun.LadderPut(s.row.value, e, session).value, s.clock)) && pid !in t.procs
  {
    var p := s.procs[pid];
    var s1 := s.With(pid, Renewing(p.judged, p.first, s.row, s.Now()));
    assert Next(s, LadderRead(pid)) == s1;
    assert Next(s1, LadderPut(pid, e, session)) == Renew(s1, pid, e, session);
  }

  lemma UninterruptedSubmissionLands(s: Sys, pid: nat, team: string, username: string, password: string)
    requires pid !in s.procs && s.uid != "" && Admitted(s.row, s.clock)
    requires s.row.Some? ==> s.row.value.ver.Some?
    ensures var t := Next(Next(s, ApiRead(pid, team, username, password)), ApiPut(pid));
      && t.row.Some? && pid !in t.procs && t.submissions == s.submissions + [t.row.value.creds]
      && t.row.value == Asked(s.uid, s.nextSerial, Request(team, username, password), s.clock, t.row.value.ver)
  {
  }

  predicate LosesTheRace(s: Sys, p: Proc) {
    p.Submitting? && !CanPut(s.row, Submission(s.uid, p.team, p.sealed, p.seen))
  }

  /** A submission that loses a race is tried again until its fifth loss, and an admitted one
      lands as soon as nothing comes between its read and its write. */
  lemma LostRacesAreRetried(s: Sys, pid: nat)
    requires pid in s.procs && s.uid != "" && (s.row.Some? ==> s.row.value.ver.Some?)
    ensures LosesTheRace(s, s.procs[pid]) ==>
      var t := Next(s, ApiPut(pid));
      && t.row == s.row && t.log == s.log
      && (pid in t.procs <==> s.procs[pid].attempt < 5) && (pid in t.procs ==> t.procs[pid].LostRace?)
    ensures s.procs[pid].LostRace? && Admitted(s.row, s.clock) ==>
      var p := s.procs[pid];
      Next(s, ApiReread(pid)).procs[pid] == Submitting(s.row, s.Now(), p.sealed, p.team, p.attempt + 1)
    ensures s.procs[pid].LostRace? && Admitted(s.row, s.clock) ==>
      var t := Next(Next(s, ApiReread(pid)), ApiPut(pid));
      && t.row.Some? && t.row.value.creds == s.procs[pid].sealed && t.row.value.team == s.procs[pid].team
      && |t.log| == |s.log| + 1
  {
  }

  // ---------------------------------------------------------------- the hypotheses are needed

  /** A resubmission between the ladder's two reads: whatever the old credentials fail with,
      the tenant's new ones are the ones marked as needing a reconnect. */
  lemma ResubmissionBetweenReadsIsBlamed(uid: UserId, c: Conn, now: int, username: string,
                                         password: string, e: Evidence)
    requires uid != "" && c.creds.Sealed? && c.ver.Some?
    requires AuthorizeRun(uid, Some(c)).Granted?
    requires ClassifyLogin(e).fault != NoClass && RouteFor(ClassifyLogin(e).fault) == ToTenant
    ensures var s := Sys(uid, Some(c), [c.creds], 0, c.creds.serial + 1, now, map[], [], map[]);
      var t := Run(s, [JobRead(0), ApiRead(1, c.team, username, password), ApiPut(1),
                       LadderRead(0), LadderPut(0, e, None)]);
      && Init(s) && |t.log| == 2 && t.log[1].actor == Ladder
      && t.row.Some? && t.row.value.status == NeedsReconnect
      && t.row.value.creds == Sealed(uid, c.creds.serial + 1, Login(username, password))
      && t.log[1].judged == c.creds != t.row.value.creds
  {
    var s := Sys(uid, Some(c), [c.creds], 0, c.creds.serial + 1, now, map[], [], map[]);
    var a, b := JobRead(0), ApiRead(1, c.team, username, password);
    var s1 := s.(procs := map[0 := Running(c.creds, Mark(1, 0))]);
    assert Next(s, a) == s1;
    FoldHead(Next, s, a, [b, ApiPut(1), LadderRead(0), LadderPut(0, e, None)]);
    BlamedMiddle(s1, c, username, password, e);
    assert [a] + [b, ApiPut(1), LadderRead(0), LadderPut(0, e, None)]
        == [a, b, ApiPut(1), LadderRead(0), LadderPut(0, e, None)];
  }

  lemma BlamedMiddle(s: Sys, c: Conn, username: string, password: string, e: Evidence)
    requires s.uid != "" && c.creds.Sealed? && c.ver.Some? && s.row == Some(c) && s.log == []
    requires c.status == Verified && s.nextSerial == c.creds.serial + 1 && s.Now() == Mark(1, 0)
    requires s.procs == map[0 := Running(c.creds, Mark(1, 0))]
    requires ClassifyLogin(e).fault != NoClass && RouteFor(ClassifyLogin(e).fault) == ToTenant
    ensures var t := Run(s, [ApiRead(1, c.team, username, password), ApiPut(1), LadderRead(0),
                             LadderPut(0, e, None)]);
      && |t.log| == 2 && t.log[1].actor == Ladder && t.log[1].judged == c.creds
      && t.row.Some? && t.row.value.status == NeedsReconnect
      && t.row.value.creds == Sealed(s.uid, s.nextSerial, Login(username, password))
  {
    var b := ApiRead(1, c.team, username, password);
    FoldHead(Next, s, b, [ApiPut(1), LadderRead(0), LadderPut(0, e, None)]);
    AskedMeanwhile(s, c, username, password);
    BlamedTail(Next(s, b), c, Sealed(s.uid, s.nextSerial, Login(username, password)), e);
    assert [b] + [ApiPut(1), LadderRead(0), LadderPut(0, e, None)]
        == [b, ApiPut(1), LadderRead(0), LadderPut(0, e, None)];
  }

  /** A verified record lets a submission in. */
  lemma AskedMeanwhile(s: Sys, c: Conn, username: string, password: string)
    requires s.row == Some(c) && c.status == Verified && 1 !in s.procs
    ensures var t := Next(s, ApiRead(1, c.team, username, password));
      && t.uid == s.uid && t.row == s.row && t.log == s.log && t.clock == s.clock
      && t.submissions == s.submissions && t.deletes == s.deletes
      && t.procs == s.procs[1 := Submitting(Some(c), s.Now(),
                                  Sealed(s.uid, s.nextSerial, Login(username, password)), c.team, 1)]
  {
  }

  lemma BlamedTail(s: Sys, c: Conn, blob: Blob, e: Evidence)
    requires s.uid != "" && c.creds.Sealed? && c.ver.Some? && s.row == Some(c) && s.log == []
    requires s.procs == map[0 := Running(c.creds, Mark(1, 0)),
                            1 := Submitting(Some(c), Mark(1, 0), blob, c.team, 1)]
    requires blob.Sealed? && blob != c.creds
    requires ClassifyLogin(e).fault != NoClass && RouteFor(ClassifyLogin(e).fault) == ToTenant
    ensures var t := Run(s, [ApiPut(1), LadderRead(0), LadderPut(0, e, None)]);
      && |t.log| == 2 && t.log[1].actor == Ladder && t.log[1].judged == c.creds
      && t.row.Some? && t.row.value.status == NeedsReconnect && t.row.value.creds == blob
  {
    var stored := Stored(Submission(s.uid, c.team, blob, Some(c)), s.clock);
    var s1 := Next(s, ApiPut(1));
    assert s1.row == Some(stored) && s1.procs == map[0 := Running(c.creds, Mark(1, 0))] && |s1.log| == 1;
    BlamedLast(s1, c.creds, stored, e);
    FoldThree(Next, s, ApiPut(1), LadderRead(0), LadderPut(0, e, None));
  }

  lemma BlamedLast(s: Sys, judged: Blob, stored: Conn, e: Evidence)
    requires s.uid != "" && s.row == Some(stored) && stored.user != "" && stored.ver.Some? && |s.log| == 1
    requires s.procs == map[0 := Running(judged, Mark(1, 0))]
    requires ClassifyLogin(e).fault != NoClass && RouteFor(ClassifyLogin(e).fault) == ToTenant
    ensures var t := Next(Next(s, LadderRead(0)), LadderPut(0, e, None));
      && |t.log| == 2 && t.log[1].actor == Ladder && t.log[1].judged == judged
      && t.row.Some? && t.row.value.status == NeedsReconnect && t.row.value.creds == stored.creds
  {
    var t := Next(s, LadderRead(0));
    assert t.procs[0] == Renewing(judged, Mark(1, 0), Some(stored), s.Now());
  }

  /** A deletion restarts the versions at one, so a verdict read before it lands on the
      record created after it, and the newly submitted credentials are gone. */
  lemma DeletionLetsAStaleVerdictLand(uid: UserId, now: int, team: string, inp: CT.Inputs)
    requires uid != ""
    requires CT.Decide(uid, Some(FirstRecord(uid, team, now)), inp).put.Some?
    ensures var s := Sys(uid, None, [], 0, 0, now, map[], [], map[]);
      var t := Run(s, [ApiRead(0, team, "a", "b"), ApiPut(0), ConnectRead(1), Delete,
                       ApiRead(2, team, "c", "d"), ApiPut(2), ConnectPut(1, inp)]);
      && Init(s)
      && t.submissions == [Sealed(uid, 0, Login("a", "b")), Sealed(uid, 1, Login("c", "d"))]
      && t.row.Some? && t.row.value.creds == t.submissions[0]
  {
    var s := Sys(uid, None, [], 0, 0, now, map[], [], map[]);
    var a, b := ApiRead(0, team, "a", "b"), ApiPut(0);
    var rest := [ConnectRead(1), Delete, ApiRead(2, team, "c", "d"), ApiPut(2), ConnectPut(1, inp)];
    var s1 := Next(s, a);
    assert s1.procs == map[0 := Submitting(None, Mark(0, 0), Sealed(uid, 0, Login("a", "b")), team, 1)];
    var s2 := Next(s1, b);
    assert s2.row == Some(FirstRecord(uid, team, now)) && s2.procs == map[]
        && s2.submissions == [Sealed(uid, 0, Login("a", "b"))];
    FoldTwo(Next, s, a, b, rest);
    StaleTail(s2, team, inp);
    assert [a, b] + rest == [ApiRead(0, team, "a", "b"), ApiPut(0), ConnectRead(1), Delete,
                             ApiRead(2, team, "c", "d"), ApiPut(2), ConnectPut(1, inp)];
  }

  function FirstRecord(uid: UserId, team: string, now: int): Conn {
    Stored(Submission(uid, team, Sealed(uid, 0, Login("a", "b")), None), now)
  }

  lemma StaleTail(s: Sys, team: string, inp: CT.Inputs)
    requires s.uid != "" && s.nextSerial == 1 && s.procs == map[]
    requires s.row == Some(FirstRecord(s.uid, team, s.clock))
    requires s.submissions == [Sealed(s.uid, 0, Login("a", "b"))]
    requires CT.Decide(s.uid, s.row, inp).put.Some?
    ensures var t := Run(s, [ConnectRead(1), Delete, ApiRead(2, team, "c", "d"), ApiPut(2),
                             ConnectPut(1, inp)]);
      && t.submissions == s.submissions + [Sealed(s.uid, 1, Login("c", "d"))]
      && t.row.Some? && t.row.value.creds == s.submissions[0]
  {
    var s1 := Next(s, ConnectRead(1));
    var s2 := Next(s1, Delete);
    assert s2.row == None && s2.procs == map[1 := Connecting(s.row, s.Now())];
    ResubmitTail(s2, s.row, s.Now(), team, inp);
    FoldTwo(Next, s, ConnectRead(1), Delete, [ApiRead(2, team, "c", "d"), ApiPut(2), ConnectPut(1, inp)]);
    assert [ConnectRead(1), Delete] + [ApiRead(2, team, "c", "d"), ApiPut(2), ConnectPut(1, inp)]
        == [ConnectRead(1), Delete, ApiRead(2, team, "c", "d"), ApiPut(2), ConnectPut(1, inp)];
  }

  lemma ResubmitTail(s: Sys, seen: Row, read: Mark, team: string, inp: CT.Inputs)
    requires s.uid != "" && s.nextSerial == 1 && s.row == None
    requires s.procs == map[1 := Connecting(seen, read)]
    requires seen.Some? && seen.value.ver == Some(1) && seen.value.user == s.uid
    requires CT.Decide(s.uid, seen, inp).put.Some?
    ensures var t := Run(s, [ApiRead(2, team, "c", "d"), ApiPut(2), ConnectPut(1, inp)]);
      && t.submissions == s.submissions + [Sealed(s.uid, 1, Login("c", "d"))]
      && t.row.Some? && t.row.value.creds == seen.value.creds
  {
    var s1 := Next(s, ApiRead(2, team, "c", "d"));
    var blob := Sealed(s.uid, 1, Login("c", "d"));
    assert s1.procs == map[1 := Connecting(seen, read), 2 := Submitting(None, s.Now(), blob, team, 1)];
    var s2 := Next(s1, ApiPut(2));
    assert s2.row == Some(Stored(Submission(s.uid, team, blob, None), s.clock));
    assert s2.procs == map[1 := Connecting(seen, read)] && s2.submissions == s.submissions + [blob];
    StalePut(s2, seen, read, inp);
    FoldThree(Next, s, ApiRead(2, team, "c", "d"), ApiPut(2), ConnectPut(1, inp));
  }

  lemma StalePut(s: Sys, seen: Row, read: Mark, inp: CT.Inputs)
    requires s.uid != "" && s.procs == map[1 := Connecting(seen, read)]
    requires seen.Some? && seen.value.user == s.uid && s.row.Some?
    requires seen.value.ver == s.row.value.ver == Some(1)
    requires CT.Decide(s.uid, seen, inp).put.Some?
    ensures var t := Next(s, ConnectPut(1, inp));
      t.submissions == s.submissions && t.row.Some? && t.row.value.creds == seen.value.creds
  {
    CT.DecisionsKeepCredentials(s.uid, seen, inp);
  }
}
