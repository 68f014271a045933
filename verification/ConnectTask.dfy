/** cmd/connect.go: one connect task, from the record it reads to the verdict it writes. */
module ConnectTask {
  import opened Wrappers
  import opened Connection
  import opened ConnectClassify

  datatype Claim = Claimed | TakenByAnother | ProfileMissing | ClaimStoreError

  /** How the world answers one connect task. `teams` and `sealed` are None on an error;
      `plain` is what the key service returned for the sealed credentials. */
  datatype Inputs = Inputs(plain: Option<Plain>, evidence: Evidence,
                           teams: Option<seq<string>>, claim: Claim, sealed: Option<Blob>,
                           now: int, runId: Option<string>)

  datatype Stage = ReadRecord | Decrypt | Parse | Identity | CookieCache | TeamLookup
                 | TeamClaim | SealSession

  /** How the task ends. The refusals are the programmer-error guards. */
  datatype Exit =
    | Connected
    | NotConnected
    | TenantMustAct(fault: FailClass)
    | OperatorMustAct(fault: FailClass)
    | FailedAfterLogin(stage: Stage)
    | FailedBeforeLogin(stage: Stage)
    | ProfileConflict
    | StoreUnwritable
    | RefusedWithoutLoginProof
    | RefusedNotOwnership
    | RefusedWithoutTeamProof
    | RefusedWithoutSession

  /** What the task wants stored, if anything, and how it ends when the store accepts it. */
  datatype Decision = Decision(put: Row, exit: Exit)

  function Stamped(c: Conn, verified: bool, runId: Option<string>): Conn {
    if runId.None? then c
    else c.(lastRun := Some(Stamp(runId.value, verified, c.lastError)))
  }

  /** `connectRun.fail`. */
  function Fail(c: Conn, fault: FailClass, proof: Proof, stage: Stage, runId: Option<string>): Decision {
    var c1 := c.(lastError := fault);
    match RouteFor(fault)
    case ToOperator => Decision(Some(Stamped(c1, false, runId)), OperatorMustAct(fault))
    case PostAuth =>
      if proof.fxrm == "" then Decision(None, RefusedWithoutLoginProof)
      else Decision(Some(Stamped(c1.(status := Interrupted), false, runId)), FailedAfterLogin(stage))
    case Internal =>
      Decision(Some(Stamped(c1.(status := CheckFailed), false, runId)), FailedBeforeLogin(stage))
    case ToTenant =>
      Decision(Some(Stamped(c1.(status := NeedsReconnect), false, runId)), TenantMustAct(fault))
  }

  /** `failCheck` onto the record read back, or onto a bare one when there is none. */
  function FailCheck(uid: UserId, row: Row, stage: Stage, runId: Option<string>): Decision {
    var c := if row.Some? then row.value
             else Conn(uid, "", "", "", Pending, NoClass, None, 0, 0, NoBlob, NoBlob, None);
    Fail(c, CheckNotRun, Proof(""), stage, runId)
  }

  /** The team Fantrax confirmed; the empty one proves nothing. */
  datatype TeamProof = TeamProof(team: string, fault: FailClass)

  function ProveTeam(team: string, owned: seq<string>): TeamProof {
    if team == "" then TeamProof("", NoTeam)
    else if team !in owned then TeamProof("", TeamNotOwned)
    else TeamProof(team, NoClass)
  }

  /** `provenRun.ownershipFault`: only the three classes about the tenant's team demote. */
  function OwnershipFault(c: Conn, fault: FailClass, runId: Option<string>): Decision {
    if fault in {TeamNotOwned, NoTeam, TeamClaimed}
    then Fail(c, fault, Proof(""), TeamClaim, runId)
    else Decision(None, RefusedNotOwnership)
  }

  function MarkVerified(c: Conn, p: TeamProof, sealed: Blob, info: Info, inp: Inputs): Decision {
    if p.team == "" then Decision(None, RefusedWithoutTeamProof)
    else if sealed == NoBlob then Decision(None, RefusedWithoutSession)
    else
      Decision(
        Some(Stamped(
          c.(team := p.team, session := sealed, fxUser := info.userId, fxEmail := info.email,
             status := Verified, lastError := NoClass, verifiedAt := inp.now),
          true, inp.runId)),
        Connected)
  }

  /** The team is proven: claim it, seal the session, and mark the record verified. */
  function FinishClaim(c: Conn, p: TeamProof, proof: Proof, info: Info, inp: Inputs): Decision {
    match inp.claim
    case TakenByAnother => OwnershipFault(c, TeamClaimed, inp.runId)
    case ProfileMissing => Decision(None, ProfileConflict)
    case ClaimStoreError => Fail(c, VerificationInterrupted, proof, TeamClaim, inp.runId)
    case Claimed =>
      if inp.sealed.None? then Fail(c, VerificationInterrupted, proof, SealSession, inp.runId)
      else MarkVerified(c, p, inp.sealed.value, info, inp)
  }

  /** `provenRun.finish`: everything after Fantrax accepted the sign-in. */
  function Finish(c: Conn, proof: Proof, info: Info, inp: Inputs): Decision {
    if inp.teams.None? then Fail(c, VerificationInterrupted, proof, TeamLookup, inp.runId)
    else
      var p := ProveTeam(c.team, inp.teams.value);
      if p.fault != NoClass then OwnershipFault(c, p.fault, inp.runId)
      else FinishClaim(c, p, proof, info, inp)
  }

  /** `connectTenant` past a successful read. */
  function Decide(uid: UserId, row: Row, inp: Inputs): Decision {
    if row.None? || row.value.creds == NoBlob then Decision(None, NotConnected)
    else if inp.plain.None? then FailCheck(uid, row, Decrypt, inp.runId)
    else if !inp.plain.value.Login? then FailCheck(uid, row, Parse, inp.runId)
    else
      var v := ClassifyLogin(inp.evidence);
      if v.fault == NoClass then Finish(row.value, v.proof, inp.evidence.info.value, inp)
      else
        var stage := if inp.evidence.identityErr then Identity else CookieCache;
        Fail(row.value, v.fault, v.proof, stage, inp.runId)
  }

  /** `connectRun.record`: a lost race is absorbed, a store error is not. */
  function ExitAfterPut(d: Decision, r: PutResult): Exit {
    if d.put.Some? && r == PutError then StoreUnwritable else d.exit
  }

  // ---------------------------------------------------------------- the imperative task

  /** Whether the first and the second read of the record succeed, whether the store
      accepts writes, and what another writer leaves there just before this task's write. */
  datatype Storage = Storage(readOk: bool, rereadOk: bool, putOk: bool, meanwhile: Option<Row>)

  class Task {
    const uid: UserId
    const store: Store
    const env: Environment
    const io: Storage

    constructor (uid: UserId, store: Store, env: Environment, io: Storage)
      ensures this.uid == uid && this.store == store && this.env == env && this.io == io
    {
      this.uid, this.store, this.env, this.io := uid, store, env, io;
    }

    /** The row this task's write meets. */
    function RowAtWrite(row: Row): Row {
      if io.meanwhile.Some? then io.meanwhile.value else row
    }

    /** `record`: stamp the run and put, in one write. */
    method Write(conn: Record, verified: bool, inp: Inputs) returns (r: PutResult)
      modifies conn, store
      ensures r == PutOutcome(RowAtWrite(old(store.row)),
                              old(Stamped(conn.View(), verified, inp.runId)), io.putOk)
      ensures store.row == AfterPut(RowAtWrite(old(store.row)),
                              old(Stamped(conn.View(), verified, inp.runId)), inp.now, io.putOk)
    {
      if inp.runId.Some? {
        conn.lastRun := Some(Stamp(inp.runId.value, verified, conn.lastError));
      }
      if io.meanwhile.Some? { store.row := io.meanwhile.value; }
      r := store.Put(conn, inp.now, io.putOk);
    }

    /** The store and the exit code agree with a decision taken on some record. */
    ghost predicate Carries(d: Decision, before: Row, exit: Exit, now: int)
      reads store
    {
      if d.put.None? then exit == d.exit && store.row == before
      else
        && exit == ExitAfterPut(d, PutOutcome(RowAtWrite(before), d.put.value, io.putOk))
        && store.row == AfterPut(RowAtWrite(before), d.put.value, now, io.putOk)
    }

    method RecordFailure(conn: Record, fault: FailClass, proof: Proof, stage: Stage, inp: Inputs)
      returns (exit: Exit)
      modifies conn, store
      ensures Carries(old(Fail(conn.View(), fault, proof, stage, inp.runId)),
                      old(store.row), exit, inp.now)
    {
      var route := RouteFor(fault);
      if route == PostAuth && proof.fxrm == "" { return RefusedWithoutLoginProof; }
      conn.lastError := fault;
      match route {
        case ToOperator => exit := OperatorMustAct(fault);
        case PostAuth => conn.status := Interrupted; exit := FailedAfterLogin(stage);
        case Internal => conn.status := CheckFailed; exit := FailedBeforeLogin(stage);
        case ToTenant => conn.status := NeedsReconnect; exit := TenantMustAct(fault);
      }
      var r := Write(conn, false, inp);
      if r == PutError { exit := StoreUnwritable; }
    }

    method RecordOwnershipFault(conn: Record, fault: FailClass, inp: Inputs) returns (exit: Exit)
      modifies conn, store
      ensures Carries(old(OwnershipFault(conn.View(), fault, inp.runId)),
                      old(store.row), exit, inp.now)
    {
      if fault !in {TeamNotOwned, NoTeam, TeamClaimed} { return RefusedNotOwnership; }
      exit := RecordFailure(conn, fault, Proof(""), TeamClaim, inp);
    }

    method FinishProven(conn: Record, proof: Proof, info: Info, inp: Inputs) returns (exit: Exit)
      modifies conn, store
      ensures Carries(old(Finish(conn.View(), proof, info, inp)),
                      old(store.row), exit, inp.now)
    {
      if inp.teams.None? {
        exit := RecordFailure(conn, VerificationInterrupted, proof, TeamLookup, inp);
        return;
      }
      var p := ProveTeam(conn.team, inp.teams.value);
      if p.fault != NoClass {
        exit := RecordOwnershipFault(conn, p.fault, inp);
        return;
      }
      exit := ClaimAndSeal(conn, p, proof, info, inp);
    }

    method ClaimAndSeal(conn: Record, p: TeamProof, proof: Proof, info: Info, inp: Inputs)
      returns (exit: Exit)
      modifies conn, store
      ensures Carries(old(FinishClaim(conn.View(), p, proof, info, inp)),
                      old(store.row), exit, inp.now)
    {
      match inp.claim {
        case TakenByAnother => exit := RecordOwnershipFault(conn, TeamClaimed, inp); return;
        case ProfileMissing => return ProfileConflict;
        case ClaimStoreError =>
          exit := RecordFailure(conn, VerificationInterrupted, proof, TeamClaim, inp);
          return;
        case Claimed =>
      }
      if inp.sealed.None? {
        exit := RecordFailure(conn, VerificationInterrupted, proof, SealSession, inp);
        return;
      }
      exit := RecordVerified(conn, p, inp.sealed.value, info, inp);
    }

    method RecordVerified(conn: Record, p: TeamProof, sealed: Blob, info: Info, inp: Inputs)
      returns (exit: Exit)
      modifies conn, store
      ensures Carries(old(MarkVerified(conn.View(), p, sealed, info, inp)),
                      old(store.row), exit, inp.now)
    {
      if p.team == "" { return RefusedWithoutTeamProof; }
      if sealed == NoBlob { return RefusedWithoutSession; }
      conn.team, conn.session := p.team, sealed;
      conn.fxUser, conn.fxEmail := info.userId, info.email;
      conn.status, conn.lastError, conn.verifiedAt := Verified, NoClass, inp.now;
      assert Stamped(conn.View(), true, inp.runId) ==
        old(MarkVerified(conn.View(), p, sealed, info, inp)).put.value;
      var r := Write(conn, true, inp);
      exit := if r == PutError then StoreUnwritable else Connected;
    }

    method RecordCheckFailed(row: Row, stage: Stage, inp: Inputs) returns (exit: Exit)
      modifies store
      ensures Carries(FailCheck(uid, row, stage, inp.runId),
                      old(store.row), exit, inp.now)
    {
      var bare := Conn(uid, "", "", "", Pending, NoClass, None, 0, 0, NoBlob, NoBlob, None);
      var conn := new Record(if row.Some? then row.value else bare);
      exit := RecordFailure(conn, CheckNotRun, Proof(""), stage, inp);
    }

    /** `connectTenant`. Whatever happens, nothing can authenticate as the tenant afterwards. */
    method Connect(inp: Inputs) returns (exit: Exit)
      modifies store, env
      ensures env.vars == NoVars
      ensures io.readOk ==> Carries(Decide(uid, old(store.row), inp), old(store.row), exit, inp.now)
      ensures !io.readOk && !io.rereadOk ==>
        store.row == old(store.row) && exit == FailedBeforeLogin(ReadRecord)
      ensures !io.readOk && io.rereadOk ==>
        Carries(FailCheck(uid, old(store.row), ReadRecord, inp.runId),
                old(store.row), exit, inp.now)
    {
      exit := Attempt(inp);
      env.Clear();
    }

    method Attempt(inp: Inputs) returns (exit: Exit)
      modifies store, env
      ensures io.readOk ==> Carries(Decide(uid, old(store.row), inp), old(store.row), exit, inp.now)
      ensures !io.readOk && !io.rereadOk ==>
        store.row == old(store.row) && exit == FailedBeforeLogin(ReadRecord)
      ensures !io.readOk && io.rereadOk ==>
        Carries(FailCheck(uid, old(store.row), ReadRecord, inp.runId),
                old(store.row), exit, inp.now)
    {
      if !io.readOk {
        if !io.rereadOk { return FailedBeforeLogin(ReadRecord); }
        exit := RecordCheckFailed(store.row, ReadRecord, inp);
        return;
      }
      var row := store.row;
      if row.None? || row.value.creds == NoBlob { return NotConnected; }
      if inp.plain.None? {
        exit := RecordCheckFailed(row, Decrypt, inp);
        return;
      }
      if !inp.plain.value.Login? {
        exit := RecordCheckFailed(row, Parse, inp);
        return;
      }
      var conn := new Record(row.value);
      // The login leaves only its session cookie in the environment.
      if inp.evidence.fxrm != "" {
        var none := Secret(Tenant(uid), "");
        env.SetFantraxEnv(none, none, Secret(Tenant(uid), CookieHeader(inp.evidence.fxrm)));
      }
      var v := ClassifyLogin(inp.evidence);
      if v.fault == NoClass {
        exit := FinishProven(conn, v.proof, inp.evidence.info.value, inp);
      } else {
        var stage := if inp.evidence.identityErr then Identity else CookieCache;
        exit := RecordFailure(conn, v.fault, v.proof, stage, inp);
      }
    }
  }

  // ---------------------------------------------------------------- what every task keeps

  /** The guards against a missing login proof, a class that is not about ownership and a
      missing team proof can never fire from `connectTenant`; the guard against a missing
      session fires exactly when the sealer returned success with nothing sealed. */
  lemma GuardsAreUnreachable(uid: UserId, row: Row, inp: Inputs)
    ensures var d := Decide(uid, row, inp);
      && d.exit != RefusedWithoutLoginProof
      && d.exit != RefusedNotOwnership
      && d.exit != RefusedWithoutTeamProof
      && (d.exit == RefusedWithoutSession <==>
            (Attempted(row, inp) && LoggedIn(inp.evidence) && TeamConfirmed(row, inp)
             && inp.claim == Claimed && inp.sealed == Some(NoBlob)))
  {
    ProofIsTheCookie(inp.evidence);
  }

  /** The guards themselves, for any caller: a post-login failure is never written without a
      cookie to show for it, a class that is not about the team never through the ownership
      fault, and nothing is verified without a team and a session. */
  lemma GuardsRefuse(c: Conn, fault: FailClass, proof: Proof, stage: Stage, p: TeamProof, sealed: Blob,
                     info: Info, inp: Inputs)
    ensures RouteFor(fault) == PostAuth && proof.fxrm == "" <==>
      Fail(c, fault, proof, stage, inp.runId) == Decision(None, RefusedWithoutLoginProof)
    ensures fault !in {TeamNotOwned, NoTeam, TeamClaimed} <==> OwnershipFault(c, fault, inp.runId).put.None?
    ensures MarkVerified(c, p, sealed, info, inp).put.None? <==> p.team == "" || sealed == NoBlob
    ensures p.team == "" ==> MarkVerified(c, p, sealed, info, inp).exit == RefusedWithoutTeamProof
  {
  }

  /** Whatever the task decided, it ends saying that the store could not be written exactly
      when it had something to write and the store failed; losing to another writer changes
      nothing about how it ends. */
  lemma ExitTellsTheStore(uid: UserId, row: Row, inp: Inputs, r: PutResult)
    ensures var d := Decide(uid, row, inp);
      && (ExitAfterPut(d, r) == StoreUnwritable <==> d.put.Some? && r == PutError)
      && (d.put.None? || r != PutError ==> ExitAfterPut(d, r) == d.exit)
  {
    ProofIsTheCookie(inp.evidence);
  }

  predicate Attempted(row: Row, inp: Inputs) {
    row.Some? && row.value.creds != NoBlob && inp.plain.Some? && inp.plain.value.Login?
  }

  /** The team on the record, confirmed by Fantrax and not held by another account. */
  predicate TeamConfirmed(row: Row, inp: Inputs)
    requires row.Some?
  {
    row.value.team != "" && inp.teams.Some? && row.value.team in inp.teams.value
  }

  /** Once Fantrax has accepted the sign-in, the tenant is told to reconnect exactly when
      Fantrax's own team list, or another account's claim, says the team is not theirs. */
  lemma ReconnectAfterLoginOnlyForTheTeam(uid: UserId, row: Row, inp: Inputs)
    requires Attempted(row, inp) && LoggedIn(inp.evidence)
    ensures var d := Decide(uid, row, inp);
      && (d.put.Some? && d.put.value.status == NeedsReconnect <==>
            inp.teams.Some? && (!TeamConfirmed(row, inp) || inp.claim == TakenByAnother))
      && (d.put.Some? && d.put.value.status == NeedsReconnect ==>
            d.put.value.lastError in {TeamNotOwned, NoTeam, TeamClaimed})
      && (d.exit == TenantMustAct(NoTeam) <==> inp.teams.Some? && row.value.team == "")
      && (d.exit == TenantMustAct(TeamNotOwned) <==>
            inp.teams.Some? && row.value.team != "" && row.value.team !in inp.teams.value)
      && (d.exit == TenantMustAct(TeamClaimed) <==> TeamConfirmed(row, inp) && inp.claim == TakenByAnother)
      && (d.put.Some? ==> d.put.value.status in {Verified, NeedsReconnect, Interrupted})
  {
    ProofIsTheCookie(inp.evidence);
  }

  /** A failure after an accepted sign-in names the step that broke. */
  lemma StageNamesTheStep(uid: UserId, row: Row, inp: Inputs)
    requires Attempted(row, inp)
    ensures var exit, e := Decide(uid, row, inp).exit, inp.evidence;
      && (exit == FailedAfterLogin(TeamLookup) <==> LoggedIn(e) && inp.teams.None?)
      && (exit == FailedAfterLogin(TeamClaim) <==>
            LoggedIn(e) && TeamConfirmed(row, inp) && inp.claim == ClaimStoreError)
      && (exit == FailedAfterLogin(SealSession) <==>
            LoggedIn(e) && TeamConfirmed(row, inp) && inp.claim == Claimed && inp.sealed.None?)
      && (exit == FailedAfterLogin(Identity) || exit == FailedAfterLogin(CookieCache) <==>
            !LoggedIn(e) && !Challenged(e) && !FormRejected(e) && e.fxrm != "" && (e.identityErr || e.persistErr))
      && (exit == FailedAfterLogin(Identity) ==> e.identityErr)
      && (exit == FailedAfterLogin(CookieCache) ==> e.persistErr && !e.identityErr)
      && (exit == ProfileConflict <==>
            LoggedIn(e) && TeamConfirmed(row, inp) && inp.claim == ProfileMissing)
  {
    BlameNeedsEvidence(inp.evidence);
    ProofIsTheCookie(inp.evidence);
  }

  /** Interrupted is only ever written on Fantrax's own evidence that the password works. */
  lemma InterruptedNeedsACookie(uid: UserId, row: Row, inp: Inputs)
    requires Attempted(row, inp)
    ensures var d := Decide(uid, row, inp);
      d.put.Some? && d.put.value.status == Interrupted && row.value.status != Interrupted ==>
        && inp.evidence.fxrm != ""
        && d.put.value.lastError == VerificationInterrupted
        && (LoggedIn(inp.evidence) || inp.evidence.identityErr || inp.evidence.persistErr)
  {
    ProofIsTheCookie(inp.evidence);
  }

  /** What a failure decision does with a record: it may write it, at the version it was
      read, with nothing changed but the status, the class and the run stamp. */
  predicate OnlyBlames(d: Decision, c: Conn) {
    d.exit != Connected &&
    (d.put.Some? ==>
       d.put.value == c.(status := d.put.value.status, lastError := d.put.value.lastError,
                         lastRun := d.put.value.lastRun)
       && (d.put.value.status == Verified ==> c.status == Verified))
  }

  lemma FailuresOnlyBlame(c: Conn, fault: FailClass, proof: Proof, stage: Stage, runId: Option<string>)
    ensures OnlyBlames(Fail(c, fault, proof, stage, runId), c)
    ensures OnlyBlames(OwnershipFault(c, fault, runId), c)
  {
  }

  /** Past an accepted sign-in, a task that does not end connected only blames. */
  lemma FinishVerifiesOrBlames(c: Conn, proof: Proof, info: Info, inp: Inputs)
    ensures var d := Finish(c, proof, info, inp);
      var proven := c.team != "" && inp.teams.Some? && c.team in inp.teams.value
        && inp.claim == Claimed && inp.sealed.Some? && inp.sealed.value != NoBlob;
      && (d.exit == Connected <==> proven)
      && (!proven ==> OnlyBlames(d, c))
      && (proven ==> d == MarkVerified(c, TeamProof(c.team, NoClass), inp.sealed.value, info, inp))
  {
    FailuresOnlyBlame(c, VerificationInterrupted, proof, TeamLookup, inp.runId);
    FailuresOnlyBlame(c, VerificationInterrupted, proof, TeamClaim, inp.runId);
    FailuresOnlyBlame(c, VerificationInterrupted, proof, SealSession, inp.runId);
    FailuresOnlyBlame(c, TeamClaimed, proof, TeamClaim, inp.runId);
    if inp.teams.Some? { FailuresOnlyBlame(c, ProveTeam(c.team, inp.teams.value).fault, proof, TeamClaim, inp.runId); }
  }

  lemma UnprovenOnlyBlames(uid: UserId, row: Row, inp: Inputs)
    requires !(Attempted(row, inp) && LoggedIn(inp.evidence))
    ensures var d := Decide(uid, row, inp);
      d.put.None? || OnlyBlames(d, row.value)
    ensures Decide(uid, row, inp).put.Some? ==> row.Some?
    ensures Decide(uid, row, inp).exit != Connected
  {
    ProofIsTheCookie(inp.evidence);
    if row.Some? {
      var v := ClassifyLogin(inp.evidence);
      FailuresOnlyBlame(row.value, CheckNotRun, Proof(""), Decrypt, inp.runId);
      FailuresOnlyBlame(row.value, CheckNotRun, Proof(""), Parse, inp.runId);
      FailuresOnlyBlame(row.value, v.fault, v.proof, Identity, inp.runId);
      FailuresOnlyBlame(row.value, v.fault, v.proof, CookieCache, inp.runId);
    }
  }

  /** Connected means proven, and proven means connected: the verified write happens exactly
      when the login, the team, the claim and the seal all stand, and it stores the session
      beside the very credentials that were judged. */
  lemma VerifiedIsProven(uid: UserId, row: Row, inp: Inputs)
    ensures var d := Decide(uid, row, inp);
      && (d.exit == Connected <==>
            (Attempted(row, inp) && LoggedIn(inp.evidence) && TeamConfirmed(row, inp)
             && inp.claim == Claimed && inp.sealed.Some? && inp.sealed.value != NoBlob))
      && (d.exit == Connected ==>
            (d.put.Some? && d.put.value.status == Verified
             && d.put.value.session == inp.sealed.value && d.put.value.lastError == NoClass))
      && (d.put.Some? && d.put.value.status == Verified && row.value.status != Verified ==>
            d.exit == Connected)
  {
    ProofIsTheCookie(inp.evidence);
    if Attempted(row, inp) && LoggedIn(inp.evidence) {
      FinishVerifiesOrBlames(row.value, ClassifyLogin(inp.evidence).proof, inp.evidence.info.value, inp);
    } else {
      UnprovenOnlyBlames(uid, row, inp);
    }
  }

  /** No decision touches the sealed credentials, the owner or the version it was read at. */
  lemma DecisionsKeepCredentials(uid: UserId, row: Row, inp: Inputs)
    ensures var d := Decide(uid, row, inp);
      d.put.Some? ==>
        && row.Some? && d.put.value.creds == row.value.creds
        && d.put.value.user == row.value.user && d.put.value.ver == row.value.ver
        && (d.exit == Connected || d.put.value.session == row.value.session)
  {
    ProofIsTheCookie(inp.evidence);
    if Attempted(row, inp) && LoggedIn(inp.evidence) {
      FinishVerifiesOrBlames(row.value, ClassifyLogin(inp.evidence).proof, inp.evidence.info.value, inp);
    } else {
      UnprovenOnlyBlames(uid, row, inp);
    }
  }

  predicate ExitsNonZero(e: Exit) { !e.Connected? && !e.TenantMustAct? }

  /** How a proven login goes on to a result: verified, or a team that is not the tenant's. */
  predicate TeamDecides(row: Row, inp: Inputs)
    requires row.Some?
  {
    inp.teams.Some? &&
    (!TeamConfirmed(row, inp) || inp.claim == TakenByAnother ||
     (inp.claim == Claimed && inp.sealed.Some? && inp.sealed.value != NoBlob))
  }

  /** The stamp a task leaves: its run, whether it verified, and the class it stored. A task
      with no run id leaves the last one. */
  function StampOf(c: Conn, verified: bool, fault: FailClass, runId: Option<string>): Option<Stamp> {
    if runId.None? then c.lastRun else Some(Stamp(runId.value, verified, fault))
  }

  /** What a connected task stores, field by field: the record it read, with the account Fantrax
      named, the sealed session and the moment of verification, and nothing left of a fault. */
  lemma VerifiedRecordIsWhole(uid: UserId, row: Row, inp: Inputs)
    requires Decide(uid, row, inp).exit == Connected
    ensures var d := Decide(uid, row, inp);
      && row.Some? && d.put.Some? && inp.evidence.info.Some? && inp.sealed.Some?
      && d.put.value == Conn(row.value.user, row.value.team,
                             inp.evidence.info.value.userId, inp.evidence.info.value.email,
                             Verified, NoClass, StampOf(row.value, true, NoClass, inp.runId),
                             inp.now, row.value.updatedAt,
                             row.value.creds, inp.sealed.value, row.value.ver)
  {
    ProofIsTheCookie(inp.evidence);
    VerifiedIsProven(uid, row, inp);
  }

  /** The status each class leaves; a block leaves the one it found. */
  function StatusFor(fault: FailClass, was: Status): Status {
    match fault
    case BotChallenge => was
    case VerificationInterrupted => Interrupted
    case CheckNotRun => CheckFailed
    case _ => NeedsReconnect
  }

  /** A failure decision on `c`, field by field. */
  predicate FailureOf(d: Decision, c: Conn, runId: Option<string>) {
    d.put.Some? ==>
      var f := d.put.value.lastError;
      && f != NoClass
      && d.put.value == c.(status := StatusFor(f, c.status), lastError := f,
                           lastRun := StampOf(c, false, f, runId))
  }

  lemma FailureIsWhole(c: Conn, fault: FailClass, proof: Proof, stage: Stage, runId: Option<string>)
    requires fault != NoClass
    ensures FailureOf(Fail(c, fault, proof, stage, runId), c, runId)
    ensures FailureOf(OwnershipFault(c, fault, runId), c, runId)
  {
  }

  lemma UnfinishedIsWhole(c: Conn, proof: Proof, info: Info, inp: Inputs)
    requires Finish(c, proof, info, inp).exit != Connected
    ensures FailureOf(Finish(c, proof, info, inp), c, inp.runId)
  {
    FailureIsWhole(c, VerificationInterrupted, proof, TeamLookup, inp.runId);
    FailureIsWhole(c, VerificationInterrupted, proof, TeamClaim, inp.runId);
    FailureIsWhole(c, VerificationInterrupted, proof, SealSession, inp.runId);
    FailureIsWhole(c, TeamClaimed, proof, TeamClaim, inp.runId);
    FailureIsWhole(c, TeamNotOwned, proof, TeamClaim, inp.runId);
    FailureIsWhole(c, NoTeam, proof, TeamClaim, inp.runId);
  }

  /** What a task that does not connect stores, if anything: the record it read, with a class,
      the status of that class, and a stamp that says so. */
  lemma FailedRecordIsWhole(uid: UserId, row: Row, inp: Inputs)
    requires Decide(uid, row, inp).exit != Connected && Decide(uid, row, inp).put.Some?
    ensures row.Some? && FailureOf(Decide(uid, row, inp), row.value, inp.runId)
  {
    var v := ClassifyLogin(inp.evidence);
    FailureIsWhole(row.value, CheckNotRun, Proof(""), Decrypt, inp.runId);
    FailureIsWhole(row.value, CheckNotRun, Proof(""), Parse, inp.runId);
    if Attempted(row, inp) {
      if v.fault == NoClass {
        UnfinishedIsWhole(row.value, v.proof, inp.evidence.info.value, inp);
      } else {
        FailureIsWhole(row.value, v.fault, v.proof, Identity, inp.runId);
        FailureIsWhole(row.value, v.fault, v.proof, CookieCache, inp.runId);
      }
    }
  }

  /** A check that could not even read the record stores the same onto what it reads back, or
      onto a bare record when there is none. */
  lemma FailedCheckIsWhole(uid: UserId, row: Row, stage: Stage, runId: Option<string>)
    ensures var d := FailCheck(uid, row, stage, runId);
      var c := if row.Some? then row.value
               else Conn(uid, "", "", "", Pending, NoClass, None, 0, 0, NoBlob, NoBlob, None);
      && d.exit == FailedBeforeLogin(stage)
      && d.put == Some(c.(status := CheckFailed, lastError := CheckNotRun,
                          lastRun := StampOf(c, false, CheckNotRun, runId)))
  {
  }

  /** The exit code pages the operator exactly when the tenant cannot act: a task ends as a
      result on a login only the tenant can put right, or on a proven one whose team or seal
      settles it, and as a failure otherwise. A block leaves the status as it was. */
  lemma PagesWhoCanAct(uid: UserId, row: Row, inp: Inputs)
    requires Attempted(row, inp)
    ensures var d := Decide(uid, row, inp);
      var e := inp.evidence;
      && (!ExitsNonZero(d.exit) <==> if LoggedIn(e) then TeamDecides(row, inp) else TenantCanAct(e))
      && (d.exit.OperatorMustAct? <==> !LoggedIn(e) && Blocked(e))
      && (d.exit.OperatorMustAct? ==> d.put.Some? && d.put.value.status == row.value.status)
      && (!ExitsNonZero(d.exit) ==> d.put.Some? && d.put.value.status in {Verified, NeedsReconnect})
      && (!LoggedIn(e) && TenantCanAct(e) ==> d.put.Some? && d.put.value.status == NeedsReconnect)
  {
    BlameNeedsEvidence(inp.evidence);
    ProofIsTheCookie(inp.evidence);
  }

  /** A task stores the verdict that the password is bad exactly on positive evidence: the
      form said so, or a cookie came back with neither an account nor an error to explain it,
      and nothing stood in front of the form. */
  lemma PasswordIsBlamedExactlyOnEvidence(uid: UserId, row: Row, inp: Inputs)
    requires Attempted(row, inp)
    ensures var d := Decide(uid, row, inp);
      var e := inp.evidence;
      (d.put.Some? && d.put.value.lastError == BadCredentials) <==>
        !LoggedIn(e) && !Challenged(e) &&
        (FormRejected(e) || (e.fxrm != "" && !e.identityErr && !e.persistErr))
  {
    BlameNeedsEvidence(inp.evidence);
    ProofIsTheCookie(inp.evidence);
  }
}
