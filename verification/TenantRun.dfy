/**
 cmd/tenantcreds.go and cmd/session_ladder.go: replacing the operator's credentials with
 one tenant's, then probing and, if Fantrax says so, renewing the tenant's session.
 */
module TenantRun {
  import opened Wrappers
  import opened Connection
  import opened ConnectClassify
  import opened Text

  /** The fields of the run's configuration this step overwrites. */
  datatype Settings = Settings(username: Secret, password: Secret, team: Secret,
                               autoApply: bool, hitters: string, pitchers: string)

  datatype User = User(autoApply: bool, hitters: string, pitchers: string)

  /** How the world answers the credential load. The profile read yields None on an error. */
  datatype Load = Load(readOk: bool, kmsOk: bool, kmsSessionOk: bool, profile: Option<Option<User>>)

  /** How the world answers the ladder: the probe's error text, the second read, the
      re-login, the sealer, the write, and what another writer leaves before that write. */
  datatype Renewal = Renewal(probeError: Option<string>, rereadOk: bool, evidence: Evidence,
                             sealed: Option<Blob>, now: int, putOk: bool, meanwhile: Option<Row>)

  const Nobody := Secret(Operator, "")

  // ---------------------------------------------------------------- loading credentials

  datatype Loaded = Loaded(ok: bool, cfg: Settings, vars: Vars)

  function Cleared(cfg: Settings): Settings {
    cfg.(username := Nobody, password := Nobody, team := Nobody)
  }

  function Owned(uid: UserId, text: string): Secret { Secret(Tenant(uid), text) }

  function LoadCredentials(uid: UserId, cfg: Settings, row: Row, w: Load): Loaded {
    var none := Loaded(false, Cleared(cfg), NoVars);
    if !w.readOk then none
    else
      match AuthorizeRun(uid, row)
      case Denied(_) => none
      case Granted(team, session, creds) =>
        match Open(uid, creds, w.kmsOk)
        case Some(Login(username, password)) =>
          if username == "" || password == "" then none
          else
            var cookie := match Open(uid, session, w.kmsSessionOk)
                          case Some(Cookie(text)) => text
                          case _ => "";
            var u, p := Owned(uid, username), Owned(uid, password);
            Loaded(true, cfg.(username := u, password := p, team := Owned(uid, team)),
                   SetVars(u, p, Owned(uid, CookieHeader(cookie))))
        case _ => none
  }

  function LoadRun(uid: UserId, cfg: Settings, row: Row, w: Load): Loaded {
    var l := LoadCredentials(uid, cfg, row, w);
    if !l.ok then l
    else
      var c := l.cfg.(autoApply := false, hitters := "", pitchers := "");
      match w.profile
      case Some(Some(u)) =>
        l.(cfg := c.(autoApply := u.autoApply, hitters := u.hitters, pitchers := u.pitchers))
      case _ => l.(cfg := c)
  }

  // ---------------------------------------------------------------- the ladder

  datatype Session = Live | Expired | Unknown

  function ClassifyProbe(error: Option<string>): Session {
    if error.None? then Live
    else if Contains(error.value, "WARNING_NOT_LOGGED_IN") then Expired
    else Unknown
  }

  /** The record the ladder stores after a re-login, if it stores one. */
  function LadderPut(held: Conn, e: Evidence, sealed: Option<Blob>): Row {
    var fault := ClassifyLogin(e).fault;
    if fault != NoClass then
      Some(held.(lastError := fault,
                 status := if RouteFor(fault) == ToTenant then NeedsReconnect else held.status))
    else if sealed.None? then None
    else Some(held.(session := sealed.value, lastError := NoClass))
  }

  /** `told` is whether the tenant's feed says their session broke. */
  datatype Renewed = Renewed(ok: bool, vars: Vars, row: Row, told: bool)

  function Refresh(cfg: Settings, vars: Vars, row: Row, w: Renewal): Renewed {
    if ClassifyProbe(w.probeError) != Expired then Renewed(true, vars, row, false)
    else if !w.rereadOk || row.None? then Renewed(false, vars, row, false)
    else
      var put := LadderPut(row.value, w.evidence, w.sealed);
      var met := if w.meanwhile.Some? then w.meanwhile.value else row;
      var result := if put.None? then PutOk else PutOutcome(met, put.value, w.putOk);
      var after := if put.None? then met else AfterPut(met, put.value, w.now, w.putOk);
      var fault := ClassifyLogin(w.evidence).fault;
      if fault != NoClass then
        Renewed(false, NoVars, after, RouteFor(fault) == ToTenant && result != PutConflict)
      else
        Renewed(true,
                SetVars(cfg.username, cfg.password,
                        Secret(cfg.username.owner, CookieHeader(w.evidence.fxrm))),
                after, false)
  }

  // ---------------------------------------------------------------- the imperative run

  class Config {
    var s: Settings

    constructor (s: Settings)
      ensures this.s == s
    {
      this.s := s;
    }
  }

  method ApplyTenantCredentials(cfg: Config, env: Environment, uid: UserId, store: Store, w: Load)
    returns (ok: bool)
    modifies cfg, env
    ensures Loaded(ok, cfg.s, env.vars) == LoadCredentials(uid, old(cfg.s), store.row, w)
  {
    cfg.s := Cleared(cfg.s);
    env.Clear();
    if !w.readOk { return false; }
    var grant := AuthorizeRun(uid, store.row);
    if grant.Denied? { return false; }
    var plain := Open(uid, grant.creds, w.kmsOk);
    if plain.None? || !plain.value.Login? { return false; }
    if plain.value.username == "" || plain.value.password == "" { return false; }
    var session := Open(uid, grant.session, w.kmsSessionOk);
    var cookie := if session.Some? && session.value.Cookie? then session.value.text else "";
    var u, p := Owned(uid, plain.value.username), Owned(uid, plain.value.password);
    cfg.s := cfg.s.(username := u, password := p, team := Owned(uid, grant.team));
    env.SetFantraxEnv(u, p, Owned(uid, CookieHeader(cookie)));
    ok := true;
  }

  method TenantRunConfig(cfg: Config, env: Environment, uid: UserId, store: Store, w: Load)
    returns (ok: bool)
    modifies cfg, env
    ensures Loaded(ok, cfg.s, env.vars) == LoadRun(uid, old(cfg.s), store.row, w)
  {
    ok := ApplyTenantCredentials(cfg, env, uid, store, w);
    if !ok { return; }
    cfg.s := cfg.s.(autoApply := false, hitters := "", pitchers := "");
    match w.profile {
      case Some(Some(u)) =>
        cfg.s := cfg.s.(autoApply := u.autoApply, hitters := u.hitters, pitchers := u.pitchers);
      case _ =>
    }
  }

  /** `fantraxLogin` as the environment sees it: the credentials are set for the browser and
      unset again, and a cookie that came back stays installed. */
  method Mint(env: Environment, username: Secret, password: Secret, e: Evidence)
    modifies env
    ensures env.vars == Vars(None, None,
      if e.fxrm != "" then Var(Secret(username.owner, CookieHeader(e.fxrm))) else old(env.vars.cookie))
  {
    env.vars := env.vars.(user := Var(username), pass := Var(password));
    if e.fxrm != "" {
      env.vars := env.vars.(cookie := Var(Secret(username.owner, CookieHeader(e.fxrm))));
    }
    env.vars := env.vars.(user := None, pass := None);
  }

  method StopRun(store: Store, env: Environment, conn: Record, fault: FailClass, w: Renewal)
    returns (told: bool)
    modifies store, env, conn
    ensures var put := old(conn.View()).(lastError := fault,
              status := if RouteFor(fault) == ToTenant then NeedsReconnect else old(conn.status));
      var met := if w.meanwhile.Some? then w.meanwhile.value else old(store.row);
      && env.vars == NoVars
      && store.row == AfterPut(met, put, w.now, w.putOk)
      && told == (RouteFor(fault) == ToTenant && PutOutcome(met, put, w.putOk) != PutConflict)
  {
    conn.lastError := fault;
    if RouteFor(fault) == ToTenant { conn.status := NeedsReconnect; }
    if w.meanwhile.Some? { store.row := w.meanwhile.value; }
    var r := store.Put(conn, w.now, w.putOk);
    env.Clear();
    told := r != PutConflict && RouteFor(fault) == ToTenant;
  }

  method RefreshSession(cfg: Config, env: Environment, store: Store, w: Renewal)
    returns (ok: bool, told: bool)
    modifies env, store
    ensures Renewed(ok, env.vars, store.row, told) ==
      old(Refresh(cfg.s, env.vars, store.row, w))
  {
    told := false;
    if ClassifyProbe(w.probeError) != Expired { return true, false; }
    if !w.rereadOk || store.row.None? { return false, false; }
    var conn := new Record(store.row.value);
    env.vars := env.vars.(cookie := None);
    Mint(env, cfg.s.username, cfg.s.password, w.evidence);
    var fault := ClassifyLogin(w.evidence).fault;
    if fault != NoClass {
      told := StopRun(store, env, conn, fault, w);
      return false, told;
    }
    if w.meanwhile.Some? { store.row := w.meanwhile.value; }
    if w.sealed.Some? {
      conn.session, conn.lastError := w.sealed.value, NoClass;
      var _ := store.Put(conn, w.now, w.putOk);
    }
    env.SetFantraxEnv(cfg.s.username, cfg.s.password,
                      Secret(cfg.s.username.owner, CookieHeader(w.evidence.fxrm)));
    ok := true;
  }

  /** The whole of `resolveTenantCredentials` for a tenant run; `sealerOk` is whether the
      session sealer could be built between the two halves. */
  method ResolveTenantCredentials(cfg: Config, env: Environment, uid: UserId, store: Store,
                                  load: Load, sealerOk: bool, renewal: Renewal)
    returns (ok: bool)
    modifies cfg, env, store
    ensures var l := old(LoadRun(uid, cfg.s, store.row, load));
      && cfg.s == l.cfg
      && (if !l.ok || !sealerOk then !ok && env.vars == l.vars
          else (var r := Refresh(l.cfg, l.vars, old(store.row), renewal);
                ok == r.ok && env.vars == r.vars && store.row == r.row))
  {
    ok := TenantRunConfig(cfg, env, uid, store, load);
    if !ok { return; }
    if !sealerOk { return false; }
    var told: bool;
    ok, told := RefreshSession(cfg, env, store, renewal);
  }

  // ---------------------------------------------------------------- isolation

  /** Nothing here lets the process authenticate as anyone but this tenant. */
  predicate OnlyTenant(uid: UserId, s: Option<Secret>) { s.Some? ==> s.value.owner == Tenant(uid) }

  predicate Isolated(uid: UserId, v: Vars) {
    OnlyTenant(uid, v.user) && OnlyTenant(uid, v.pass) && OnlyTenant(uid, v.cookie)
  }

  predicate Belongs(uid: UserId, s: Secret) { s.text == "" || s.owner == Tenant(uid) }

  predicate IsolatedConfig(uid: UserId, c: Settings) {
    Belongs(uid, c.username) && Belongs(uid, c.password) && Belongs(uid, c.team)
  }

  /** Whatever secrets the process started with, after the load it holds only this tenant's
      or none; it holds any at all exactly when the load succeeded, and then the tenant has a
      verified record sealed for them. */
  lemma LoadIsolates(uid: UserId, cfg: Settings, row: Row, w: Load)
    ensures var l := LoadRun(uid, cfg, row, w);
      && Isolated(uid, l.vars) && IsolatedConfig(uid, l.cfg)
      && (!l.ok <==> l.vars == NoVars)
      && (!l.ok ==> l.cfg == Cleared(cfg))
      && (l.ok ==> (row.Some? && row.value.user == uid && row.value.status == Verified
                    && row.value.creds.Sealed? && row.value.creds.owner == uid
                    && l.cfg.team.text == row.value.team))
  {
    if LoadRun(uid, cfg, row, w).ok { assert AuthorizeRun(uid, row).Granted?; }
  }

  /** The probe came back with Fantrax's own statement that nobody is logged in. */
  predicate SaysNotLoggedIn(error: Option<string>) {
    error.Some? && Contains(error.value, "WARNING_NOT_LOGGED_IN")
  }

  /** The ladder keeps it so on every path, and a re-login that failed leaves nothing. */
  lemma RefreshIsolates(uid: UserId, cfg: Settings, vars: Vars, row: Row, w: Renewal)
    requires Isolated(uid, vars) && cfg.username.owner == Tenant(uid) && cfg.password.owner == Tenant(uid)
    ensures var r := Refresh(cfg, vars, row, w);
      && Isolated(uid, r.vars)
      && (SaysNotLoggedIn(w.probeError) && w.rereadOk && row.Some? ==>
            (r.ok <==> LoggedIn(w.evidence)) && (!r.ok ==> r.vars == NoVars))
  {
  }

  /** From the operator's secrets to the end of the run's setup, over every failure of
      reads, opens, probe, re-login, seal and store. */
  lemma EveryPathIsolates(uid: UserId, cfg: Settings, row: Row, load: Load, second: Row, renewal: Renewal)
    ensures var l := LoadRun(uid, cfg, row, load);
      && Isolated(uid, l.vars)
      && (l.ok ==> Isolated(uid, Refresh(l.cfg, l.vars, second, renewal).vars))
  {
    LoadIsolates(uid, cfg, row, load);
    if LoadRun(uid, cfg, row, load).ok {
      RefreshIsolates(uid, LoadRun(uid, cfg, row, load).cfg, LoadRun(uid, cfg, row, load).vars,
                      second, renewal);
    }
  }

  /** Whether a load will succeed, from the record and the answers it meets: the record is read
      and grants the run, and its credentials were sealed for this tenant, open, and hold both
      a user name and a password. */
  predicate Loads(uid: UserId, row: Row, w: Load) {
    && w.readOk && w.kmsOk && AuthorizeRun(uid, row).Granted?
    && row.value.creds.Sealed? && row.value.creds.owner == uid && row.value.creds.plain.Login?
    && row.value.creds.plain.username != "" && row.value.creds.plain.password != ""
  }

  /** The load succeeds exactly then, whatever the settings it starts from. */
  lemma LoadSucceedsExactly(uid: UserId, cfg: Settings, row: Row, w: Load)
    ensures LoadRun(uid, cfg, row, w).ok <==> Loads(uid, row, w)
  {
  }

  /** Not wrapped in quotes already. */
  predicate Bare(text: string) { text != "" && !(|text| >= 2 && text[0] == '"' && text[|text| - 1] == '"') }

  /** A session value makes the same header whether or not it comes wrapped in quotes, and that
      header says the value. */
  lemma QuotesDoNotMatter(text: string)
    requires Bare(text)
    ensures CookieHeader(text) == CookieHeader("\"" + text + "\"") == "FX_RM=" + text
    ensures CookieHeader("") == "" && CookieHeader("\"\"") == "FX_RM="
  {
    var quoted := "\"" + text + "\"";
    assert quoted[1..|quoted| - 1] == text;
  }

  /** What a load installs: the user name and the password the blob opened to, each in its own
      variable, this tenant's session as the cookie header if it opens and nothing if not, and
      in the settings the same two and the record's team. */
  lemma LoadInstallsWhatWasOpened(uid: UserId, cfg: Settings, row: Row, w: Load, cookie: string)
    requires Loads(uid, row, w)
    ensures var l := LoadRun(uid, cfg, row, w);
      var plain, session := row.value.creds.plain, row.value.session;
      var opens := w.kmsSessionOk && session.Sealed? && session.owner == uid && session.plain.Cookie?;
      var u, p := Secret(Tenant(uid), plain.username), Secret(Tenant(uid), plain.password);
      && l.vars.user == Some(u) && l.vars.pass == Some(p)
      && l.cfg.username == u && l.cfg.password == p && l.cfg.team == Secret(Tenant(uid), row.value.team)
      && (opens && session.plain.text == cookie && Bare(cookie) ==>
            l.vars.cookie == Some(Secret(Tenant(uid), "FX_RM=" + cookie)))
      && (!opens || session.plain.text == "" ==> l.vars.cookie == None)
  {
  }

  /** What a renewal installs: the run's own user name and password again, and the header of
      the cookie Fantrax just issued. */
  lemma RenewalInstallsTheNewCookie(cfg: Settings, vars: Vars, row: Row, w: Renewal)
    requires SaysNotLoggedIn(w.probeError) && w.rereadOk && row.Some?
    requires LoggedIn(w.evidence) && Bare(w.evidence.fxrm)
    requires cfg.username.text != "" && cfg.password.text != ""
    ensures var r := Refresh(cfg, vars, row, w);
      r.ok && r.vars == Vars(Some(cfg.username), Some(cfg.password),
                             Some(Secret(cfg.username.owner, "FX_RM=" + w.evidence.fxrm)))
  {
  }

  /** The record another writer left just before the ladder's own write, or the one it read. */
  function MetBy(row: Row, w: Renewal): Row { if w.meanwhile.Some? then w.meanwhile.value else row }

  /** The ladder has something to store: any verdict on a failed login, or a session it sealed. */
  predicate Stores(w: Renewal) { !LoggedIn(w.evidence) || w.sealed.Some? }

  /** The write finds the record at the version the ladder read. */
  predicate Meets(row: Row, w: Renewal)
    requires row.Some?
  {
    if row.value.ver.None? then MetBy(row, w).None?
    else MetBy(row, w).Some? && MetBy(row, w).value.ver == row.value.ver
  }

  /** The ladder, end to end. Anything but Fantrax's own statement leaves everything alone and
      the run goes on; a record that cannot be read again stops it with nothing changed. After a
      re-login the run goes on exactly if Fantrax accepted it; the record changes exactly if
      there is something to store, the store takes it and nobody wrote in between; and the
      tenant is told exactly of a failure only they can put right, unless somebody did. */
  lemma LadderEndsExactly(cfg: Settings, vars: Vars, row: Row, w: Renewal)
    ensures !SaysNotLoggedIn(w.probeError) ==> Refresh(cfg, vars, row, w) == Renewed(true, vars, row, false)
    ensures SaysNotLoggedIn(w.probeError) && (!w.rereadOk || row.None?) ==>
      Refresh(cfg, vars, row, w) == Renewed(false, vars, row, false)
    ensures SaysNotLoggedIn(w.probeError) && w.rereadOk && row.Some? ==>
      var r, e := Refresh(cfg, vars, row, w), w.evidence;
      && (r.ok <==> LoggedIn(e))
      && (r.told <==>
            (!LoggedIn(e) && TenantCanAct(e) && (!w.putOk || row.value.user == "" || Meets(row, w))))
      && (if Stores(w) && w.putOk && row.value.user != "" && Meets(row, w)
          then r.row.Some? && r.row.value.updatedAt == w.now
               && r.row.value.creds == row.value.creds && r.row.value.team == row.value.team
               && r.row.value.session == (if LoggedIn(e) then w.sealed.value else row.value.session)
               && r.row.value.status ==
                    (if !LoggedIn(e) && TenantCanAct(e) then NeedsReconnect else row.value.status)
          else r.row == MetBy(row, w))
  {
    BlameNeedsEvidence(w.evidence);
    ProofIsTheCookie(w.evidence);
  }

  /** A round trip over two runs: a session renewed, sealed and stored by one run, with nothing
      in between, is what the next run of the tenant signs in with. */
  lemma NextRunUsesTheRenewedSession(uid: UserId, cfg: Settings, vars: Vars, row: Row, w: Renewal,
                                     serial: nat, cfg2: Settings, load: Load)
    requires SaysNotLoggedIn(w.probeError) && w.rereadOk && LoggedIn(w.evidence)
    requires Loads(uid, row, load) && uid != "" && row.value.ver.Some?
    requires w.sealed == Some(Sealed(uid, serial, Cookie(w.evidence.fxrm))) && Bare(w.evidence.fxrm)
    requires w.putOk && w.meanwhile.None? && load.kmsSessionOk
    ensures var r := Refresh(cfg, vars, row, w);
      && Loads(uid, r.row, load)
      && LoadRun(uid, cfg2, r.row, load).vars.cookie == Some(Secret(Tenant(uid), "FX_RM=" + w.evidence.fxrm))
      && LoadRun(uid, cfg2, r.row, load).vars.user == LoadRun(uid, cfg2, row, load).vars.user
      && LoadRun(uid, cfg2, r.row, load).vars.pass == LoadRun(uid, cfg2, row, load).vars.pass
  {
    var r := Refresh(cfg, vars, row, w);
    assert r.row == Some(Stored(row.value.(session := w.sealed.value, lastError := NoClass), w.now));
    LoadInstallsWhatWasOpened(uid, cfg2, r.row, load, w.evidence.fxrm);
    LoadInstallsWhatWasOpened(uid, cfg2, row, load, "");
  }

  /** Consent: a load that goes through leaves the write flag true exactly when the profile was
      read and says so; one that is refused leaves it as it arrived. So the flag can come back
      true without a load and a consent behind it exactly when the load is refused and the
      flag arrived true; the credentials are then gone. */
  lemma ConsentIsLowered(uid: UserId, cfg: Settings, row: Row, w: Load)
    ensures var l := LoadRun(uid, cfg, row, w);
      var consented := w.profile.Some? && w.profile.value.Some? && w.profile.value.value.autoApply;
      && l.cfg.autoApply == (if Loads(uid, row, w) then consented else cfg.autoApply)
      && ((l.cfg.autoApply ==> Loads(uid, row, w) && consented) <==> Loads(uid, row, w) || !cfg.autoApply)
      && (!Loads(uid, row, w) ==> l.vars == NoVars && l.cfg.username.text == l.cfg.password.text == "")
  {
    LoadSucceedsExactly(uid, cfg, row, w);
  }

  /** The flag does survive a refused load: the single-tenant default is true. */
  lemma RefusedLoadKeepsTheFlag(uid: UserId, cfg: Settings)
    requires cfg.autoApply
    ensures var l := LoadRun(uid, cfg, None, Load(true, true, true, None));
      !l.ok && l.cfg.autoApply && l.cfg.username.text == "" && l.cfg.team.text == ""
  {
  }

  /** Only Fantrax's own statement that nobody is logged in may drive a login; anything else
      changes neither the environment nor the record. */
  lemma OnlyExpiryActs(cfg: Settings, vars: Vars, row: Row, w: Renewal)
    ensures var r := Refresh(cfg, vars, row, w);
      r != Renewed(true, vars, row, false) ==>
        w.probeError.Some? && Contains(w.probeError.value, "WARNING_NOT_LOGGED_IN")
  {
  }

  /** The no-retry rule: a failure the tenant must fix, once stored, refuses every later
      run; any other failure leaves a verified record able to run again. */
  lemma DemotionStopsLaterRuns(uid: UserId, held: Conn, e: Evidence, sealed: Option<Blob>, now: int)
    requires held.user == uid && AuthorizeRun(uid, Some(held)).Granted?
    ensures var put := LadderPut(held, e, sealed);
      var fault := ClassifyLogin(e).fault;
      put.Some? ==>
        (AuthorizeRun(uid, Some(Stored(put.value, now))).Denied? <==>
           (RouteFor(fault) == ToTenant && fault != NoClass) ||
           (fault == NoClass && sealed == Some(NoBlob)))
  {
  }
}
