/** cmd/connect_classify.go: what a login attempt's evidence says, and what each class does. */
module ConnectClassify {
  import opened Wrappers
  import opened Connection
  import opened Text

  datatype Info = Info(userId: string, email: string)

  /** Errors are only ever tested for presence. `title` is the page title in lower case. */
  datatype Evidence = Evidence(fxrm: string, info: Option<Info>, title: string,
                               matched: set<string>, texts: map<string, string>,
                               persistErr: bool, identityErr: bool)
  {
    predicate Has(probe: string) { probe in matched }

    function TextOf(probe: string): string { if probe in texts then texts[probe] else "" }
  }

  datatype Route = ToTenant | ToOperator | PostAuth | Internal

  /** The cookie Fantrax issued; the empty one proves nothing. */
  datatype Proof = Proof(fxrm: string)

  datatype Verdict = Verdict(proof: Proof, fault: FailClass)

  const CloudflareTitles: seq<string> :=
    ["just a moment", "attention required", "checking your browser", "cloudflare"]

  predicate MatchesAny(s: string, needles: seq<string>) {
    exists k :: 0 <= k < |needles| && s != "" && Contains(s, needles[k])
  }

  function ClassifyLogin(e: Evidence): Verdict {
    if e.fxrm != "" && e.info.Some? && e.info.value.userId != "" then
      Verdict(Proof(e.fxrm), NoClass)
    else if e.Has("cloudflare") || MatchesAny(e.title, CloudflareTitles) then
      Verdict(Proof(""), BotChallenge)
    else if e.Has("otp") then Verdict(Proof(""), TwoFactor)
    else if e.Has("login_form") && (e.TextOf("form_error") != "" || e.TextOf("error_text") != "") then
      Verdict(Proof(""), BadCredentials)
    else if e.fxrm != "" && (e.identityErr || e.persistErr) then
      Verdict(Proof(e.fxrm), VerificationInterrupted)
    else if e.fxrm != "" then Verdict(Proof(""), BadCredentials)
    else Verdict(Proof(""), ChallengeOrTimeout)
  }

  function RouteFor(fault: FailClass): Route {
    match fault
    case BotChallenge => ToOperator
    case VerificationInterrupted => PostAuth
    case CheckNotRun => Internal
    case _ => ToTenant
  }

  predicate LoggedIn(e: Evidence) {
    e.fxrm != "" && e.info.Some? && e.info.value.userId != ""
  }

  /** A bot challenge stands in front of the page. */
  predicate Blocked(e: Evidence) { e.Has("cloudflare") || MatchesAny(e.title, CloudflareTitles) }

  predicate Challenged(e: Evidence) { Blocked(e) || e.Has("otp") }

  predicate FormRejected(e: Evidence) {
    e.Has("login_form") && (e.TextOf("form_error") != "" || e.TextOf("error_text") != "")
  }

  /** The evidence of an unproven login that only the tenant can act on. */
  predicate TenantCanAct(e: Evidence) {
    !Blocked(e) && (e.Has("otp") || FormRejected(e) || e.fxrm == "" || (!e.identityErr && !e.persistErr))
  }

  /** What counts as a bot challenge: the probe for one, or a page title that says so. */
  lemma BlockedExactly(e: Evidence)
    ensures Blocked(e) <==>
      || e.Has("cloudflare")
      || Contains(e.title, "just a moment") || Contains(e.title, "attention required")
      || Contains(e.title, "checking your browser") || Contains(e.title, "cloudflare")
  {
    assert CloudflareTitles[0] == "just a moment" && CloudflareTitles[1] == "attention required";
    assert CloudflareTitles[2] == "checking your browser" && CloudflareTitles[3] == "cloudflare";
    assert |CloudflareTitles| == 4;
  }

  /** Blame needs positive evidence: the password is judged bad exactly when no session was
      proven, nothing stood in front of the form, and either the form said so or a cookie
      came back with neither an account nor an error to explain it. A cookie with a named
      later failure is never blamed on the password unless the form itself complained. */
  lemma BlameNeedsEvidence(e: Evidence)
    ensures ClassifyLogin(e).fault == BadCredentials <==>
      !LoggedIn(e) && !Challenged(e) &&
      (FormRejected(e) || (e.fxrm != "" && !e.identityErr && !e.persistErr))
    ensures RouteFor(ClassifyLogin(e).fault) == ToOperator <==> !LoggedIn(e) && Blocked(e)
    ensures ClassifyLogin(e).fault == TwoFactor <==>
      !LoggedIn(e) && e.Has("otp") && !Blocked(e)
    ensures ClassifyLogin(e).fault == VerificationInterrupted <==>
      !LoggedIn(e) && !Challenged(e) && !FormRejected(e) && e.fxrm != "" && (e.identityErr || e.persistErr)
    ensures ClassifyLogin(e).fault == ChallengeOrTimeout <==>
      !Challenged(e) && !FormRejected(e) && e.fxrm == ""
    ensures RouteFor(ClassifyLogin(e).fault) != Internal
    ensures ClassifyLogin(e).fault != NoClass && RouteFor(ClassifyLogin(e).fault) == ToTenant <==>
      !LoggedIn(e) && TenantCanAct(e)
  {
  }

  /** The proof is carried by exactly the two verdicts that need it, and is the cookie. */
  lemma ProofIsTheCookie(e: Evidence)
    ensures var v := ClassifyLogin(e);
      && (v.proof.fxrm != "" <==>
            v.fault == NoClass || RouteFor(v.fault) == PostAuth)
      && (v.proof.fxrm != "" ==> v.proof.fxrm == e.fxrm)
      && (v.fault == NoClass <==> LoggedIn(e))
      && (RouteFor(v.fault) == PostAuth ==> e.identityErr || e.persistErr)
  {
  }
}
