/**
 internal/lineupapi: a tenant's Fantrax connection record, its compare-and-set store,
 the sealed blobs in it, and the decision whether a job may act for the tenant.
 */
module Connection {
  import opened Wrappers

  type UserId = string

  datatype Principal = Operator | Tenant(uid: UserId)

  datatype Status = Pending | Verified | NeedsReconnect | Interrupted | CheckFailed

  /** The failure classes; NoClass is the empty string. */
  datatype FailClass =
    | NoClass
    | BadCredentials
    | ChallengeOrTimeout
    | TwoFactor
    | BotChallenge
    | TeamNotOwned
    | NoTeam
    | TeamClaimed
    | VerificationInterrupted
    | CheckNotRun

  /** What a ciphertext hides. Anything but a credential pair fails to parse as one. */
  datatype Plain = Login(username: string, password: string) | Cookie(text: string) | Junk

  /** A ciphertext: sealed under one tenant's context, and distinct at every sealing. */
  datatype Blob = NoBlob | Sealed(owner: UserId, serial: nat, plain: Plain)

  /** The key service opens a blob only under the tenant it was sealed for. */
  function Open(uid: UserId, b: Blob, kmsOk: bool): Option<Plain> {
    if kmsOk && b.Sealed? && b.owner == uid then Some(b.plain) else None
  }

  datatype Stamp = Stamp(runId: string, verified: bool, lastError: FailClass)

  /** `ver` is None for a record never stored, Some(0) for one stored before versions. */
  datatype Conn = Conn(user: UserId, team: string, fxUser: string, fxEmail: string,
                       status: Status, lastError: FailClass, lastRun: Option<Stamp>,
                       verifiedAt: int, updatedAt: int,
                       creds: Blob, session: Blob, ver: Option<nat>)

  type Row = Option<Conn>

  // ---------------------------------------------------------------- the store

  /** The condition of a put: create only over nothing, otherwise only over the version read. */
  predicate CanPut(row: Row, c: Conn) {
    if c.ver.None? then row.None? else row.Some? && row.value.ver == c.ver
  }

  function Stored(c: Conn, now: int): Conn {
    c.(ver := Some(if c.ver.None? then 1 else c.ver.value + 1), updatedAt := now)
  }

  datatype PutResult = PutOk | PutConflict | PutError

  function PutOutcome(row: Row, c: Conn, storeOk: bool): PutResult {
    if !storeOk || c.user == "" then PutError
    else if CanPut(row, c) then PutOk else PutConflict
  }

  function AfterPut(row: Row, c: Conn, now: int, storeOk: bool): Row {
    if PutOutcome(row, c, storeOk) == PutOk then Some(Stored(c, now)) else row
  }

  class Store {
    var row: Row

    constructor (row: Row)
      ensures this.row == row
    {
      this.row := row;
    }

    /** On success the record in hand advances to the version it was stored at. */
    method Put(c: Record, now: int, storeOk: bool) returns (r: PutResult)
      modifies this`row, c`ver
      ensures r == PutError <==> !storeOk || c.user == ""
      ensures r == PutOk <==>
        (&& storeOk && c.user != ""
         && (if old(c.ver) == None then old(row) == None
             else old(row).Some? && old(row).value.ver == old(c.ver)))
      ensures r != PutOk ==> row == old(row)
      ensures r == PutOutcome(old(row), old(c.View()), storeOk)
      ensures row == AfterPut(old(row), old(c.View()), now, storeOk)
      ensures c.ver == if r == PutOk then row.value.ver else old(c.ver)
    {
      r := PutOutcome(row, c.View(), storeOk);
      if r == PutOk {
        row := Some(Stored(c.View(), now));
        c.ver := row.value.ver;
      }
    }
  }

  /** The record a writer holds and edits between its read and its write. */
  class Record {
    const user: UserId
    const creds: Blob
    const updatedAt: int
    var team: string
    var fxUser: string
    var fxEmail: string
    var status: Status
    var lastError: FailClass
    var lastRun: Option<Stamp>
    var verifiedAt: int
    var session: Blob
    var ver: Option<nat>

    constructor (c: Conn)
      ensures View() == c
    {
      user, creds, updatedAt := c.user, c.creds, c.updatedAt;
      team, fxUser, fxEmail, status := c.team, c.fxUser, c.fxEmail, c.status;
      lastError, lastRun, verifiedAt := c.lastError, c.lastRun, c.verifiedAt;
      session, ver := c.session, c.ver;
    }

    function View(): (c: Conn)
      reads this
      ensures c.user == user && c.creds == creds && c.ver == ver
    {
      Conn(user, team, fxUser, fxEmail, status, lastError, lastRun, verifiedAt, updatedAt,
           creds, session, ver)
    }
  }

  // ---------------------------------------------------------------- the process environment

  datatype Secret = Secret(owner: Principal, text: string)

  /** The three variables the Fantrax client reads; None is unset. */
  datatype Vars = Vars(user: Option<Secret>, pass: Option<Secret>, cookie: Option<Secret>)

  const NoVars := Vars(None, None, None)

  function Var(s: Secret): Option<Secret> { if s.text == "" then None else Some(s) }

  function SetVars(user: Secret, pass: Secret, cookie: Secret): Vars {
    Vars(Var(user), Var(pass), Var(cookie))
  }

  class Environment {
    var vars: Vars

    constructor (vars: Vars)
      ensures this.vars == vars
    {
      this.vars := vars;
    }

    /** `setFantraxEnv`: an empty string unsets. */
    method SetFantraxEnv(user: Secret, pass: Secret, cookie: Secret)
      modifies this
      ensures vars == SetVars(user, pass, cookie)
    {
      vars := SetVars(user, pass, cookie);
    }

    method Clear()
      modifies this
      ensures vars == NoVars
    {
      vars := NoVars;
    }
  }

  /** The Cookie header for a raw session value, with one pair of quotes unwrapped. */
  function CookieHeader(fxrm: string): string {
    if fxrm == "" then ""
    else if |fxrm| >= 2 && fxrm[0] == '"' && fxrm[|fxrm| - 1] == '"' then
      "FX_RM=" + fxrm[1..|fxrm| - 1]
    else "FX_RM=" + fxrm
  }

  // ---------------------------------------------------------------- authorization

  datatype Denial =
    | NoConnection
    | WrongTenant
    | MustReconnect
    | NotVerified
    | NoSession
    | NoCredentials
    | NoTeamOnRecord

  datatype Authz = Granted(team: string, session: Blob, creds: Blob) | Denied(reason: Denial)

  function AuthorizeRun(uid: UserId, row: Row): Authz {
    if row.None? then Denied(NoConnection)
    else
      var c := row.value;
      if c.user != uid then Denied(WrongTenant)
      else if c.status == NeedsReconnect then Denied(MustReconnect)
      else if c.status != Verified then Denied(NotVerified)
      else if c.session == NoBlob then Denied(NoSession)
      else if c.creds == NoBlob then Denied(NoCredentials)
      else if c.team == "" then Denied(NoTeamOnRecord)
      else Granted(c.team, c.session, c.creds)
  }

  /** A job may act exactly for a tenant whose own record is verified and complete, and only
      on what that record says. */
  lemma GrantIsTheVerifiedRecord(uid: UserId, row: Row)
    ensures var g := AuthorizeRun(uid, row);
      && (g.Granted? <==>
            (row.Some? && row.value.user == uid && row.value.status == Verified && row.value.team != ""
             && row.value.session != NoBlob && row.value.creds != NoBlob))
      && (g.Granted? ==> g == Granted(row.value.team, row.value.session, row.value.creds))
  {
  }

  /** A refusal names what stands in the way, the first thing that does. */
  lemma DenialNamesTheReason(uid: UserId, row: Row)
    ensures var g := AuthorizeRun(uid, row);
      && (g == Denied(NoConnection) <==> row.None?)
      && (g == Denied(WrongTenant) <==> row.Some? && row.value.user != uid)
      && (g == Denied(MustReconnect) <==>
            row.Some? && row.value.user == uid && row.value.status == NeedsReconnect)
      && (g == Denied(NotVerified) <==>
            row.Some? && row.value.user == uid && row.value.status in {Pending, Interrupted, CheckFailed})
      && (g.Denied? && g.reason in {NoSession, NoCredentials, NoTeamOnRecord} <==>
            row.Some? && row.value.user == uid && row.value.status == Verified &&
            (row.value.session == NoBlob || row.value.creds == NoBlob || row.value.team == ""))
      && (g == Denied(NoSession) ==> row.value.session == NoBlob)
      && (g == Denied(NoCredentials) ==> row.value.creds == NoBlob)
      && (g == Denied(NoTeamOnRecord) ==> row.value.team == "")
  {
  }

  // ---------------------------------------------------------------- the API's guard

  const InFlightWindow: int := 600
  const Cooldown: int := 60

  /** `connectInFlightRefusal`, in seconds. */
  predicate RefusesSubmission(c: Conn, now: int) {
    || (c.status == Pending && now - c.updatedAt < InFlightWindow)
    || (c.status == Interrupted && now - c.updatedAt < Cooldown)
    || (c.status == CheckFailed && now - c.updatedAt < Cooldown)
  }

  /** The record a submission stores: everything about the old one but its version is gone. */
  function Submission(uid: UserId, team: string, creds: Blob, row: Row): Conn {
    Conn(uid, team, "", "", Pending, NoClass, None, 0, 0, creds, NoBlob,
         if row.Some? then row.value.ver else None)
  }
}
