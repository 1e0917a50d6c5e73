/** Properties that hold of every run of the three handlers: how a run
    settles its challenge, which URL the browser ends up at, and when a run
    reaches the generic error handler. */
module HydraProperties {
  import opened Values
  import opened Settings
  import opened Hydra

  /** The number of calls in a trace that settle a challenge. */
  function Resolutions(calls: seq<Call>): nat
  {
    if calls == [] then 0
    else (if calls[0].Resolves() then 1 else 0) + Resolutions(calls[1..])
  }

  /** A trace in which only the last call may settle the challenge settles
      it at most once. */
  lemma {:induction false} OnlyLastResolves(calls: seq<Call>)
    requires forall i :: 0 <= i < |calls| - 1 ==> !calls[i].Resolves()
    ensures Resolutions(calls) == if calls != [] && calls[|calls| - 1].Resolves() then 1 else 0
  {
    if calls != [] {
      OnlyLastResolves(calls[1..]);
    }
  }

  /** The challenge a call is about, if it is about one. */
  function ChallengeOf(c: Call): Option<FormValue>
  {
    match c
    case GetLoginRequest(ch) => Some(Single(ch))
    case AcceptLoginRequest(ch, _) => Some(Single(ch))
    case ToSession(_) => None
    case GetConsentRequest(ch) => Some(ch)
    case AcceptConsentRequest(ch, _) => Some(ch)
    case RejectConsentRequest(ch, _) => Some(ch)
  }

  /** A run settles its challenge at most once, and only with its last
      call; the browser is sent to a URL an upstream answer supplied exactly
      when that last call succeeded, and to that URL unchanged. */
  ghost predicate SettlesOnce(up: Upstream, r: Run)
  {
    && Resolutions(r.calls) <= 1
    && (forall i :: 0 <= i < |r.calls| - 1 ==> !r.calls[i].Resolves())
    && ((r.outcome.Redirect? && r.outcome.location.Returned?) <==>
          (|r.calls| > 0 && r.calls[|r.calls| - 1].Resolves() && ReplyTo(up, r.calls[|r.calls| - 1]).Ok?))
    && (r.outcome.Redirect? && r.outcome.location.Returned? ==>
          r.outcome.location.href == ReplyTo(up, r.calls[|r.calls| - 1]).value.redirectTo)
  }

  /** Every call of a run is about the same challenge, and no accept is sent
      for a challenge that was not first looked up. */
  ghost predicate OneChallengeLookedUp(calls: seq<Call>)
  {
    && (forall i, j :: 0 <= i < |calls| && 0 <= j < |calls| && ChallengeOf(calls[i]).Some? && ChallengeOf(calls[j]).Some? ==>
          ChallengeOf(calls[i]) == ChallengeOf(calls[j]))
    && (forall i :: 0 <= i < |calls| && calls[i].AcceptLoginRequest? ==>
          exists j :: 0 <= j < i && calls[j] == GetLoginRequest(calls[i].loginChallenge))
    && (forall i :: 0 <= i < |calls| && calls[i].AcceptConsentRequest? ==>
          exists j :: 0 <= j < i && calls[j] == GetConsentRequest(calls[i].consentChallenge))
  }

  /** Both handlers accept exactly the same challenge values, although they
      test them differently. */
  lemma ChallengeChecksAgree(v: FormValue)
    ensures LoginChallenge(v) == ConsentChallenge(v)
  {
  }

  lemma LoginSettlesOnce(cfg: Config, urls: UrlParser, up: Upstream, req: Request)
    ensures SettlesOnce(up, HydraLogin(cfg, urls, up, req))
    ensures OneChallengeLookedUp(HydraLogin(cfg, urls, up, req).calls)
  {
    var r := HydraLogin(cfg, urls, up, req);
    var fallback := RedirectToLogin(cfg, urls, req);
    assert !(fallback.Redirect? && fallback.location.Returned?);
    if |r.calls| > 1 {
      assert r.calls[0].GetLoginRequest?;
    }
    OnlyLastResolves(r.calls);
  }

  lemma GetConsentSettlesOnce(up: Upstream, req: Request)
    requires req.verb == "GET" || req.verb == "HEAD"
    ensures SettlesOnce(up, HydraGetConsent(up, req))
    ensures OneChallengeLookedUp(HydraGetConsent(up, req).calls)
  {
    OnlyLastResolves(HydraGetConsent(up, req).calls);
  }

  lemma PostConsentSettlesOnce(up: Upstream, req: Request)
    requires req.verb == "POST"
    ensures SettlesOnce(up, HydraPostConsent(up, req))
    ensures OneChallengeLookedUp(HydraPostConsent(up, req).calls)
  {
    OnlyLastResolves(HydraPostConsent(up, req).calls);
  }

  /** Without skip, a failed session lookup, a session without an identity,
      or a failed accept all send the browser to the identity provider's
      login flow, never to the error handler, as long as both URLs can be
      built. */
  lemma LoginFallbackIsKratosLogin(cfg: Config, urls: UrlParser, up: Upstream, req: Request)
    requires LoginChallenge(Lookup(req.query, "login_challenge")).Some?
    requires var ch := Lookup(req.query, "login_challenge").text;
             up.getLogin(ch).Ok? && !up.getLogin(ch).value.skip
    requires var ch := Lookup(req.query, "login_challenge").text;
             var s := up.toSession(req.cookie);
             s.Fail? || s.value.identity.None? || up.acceptLogin(ch, RememberLogin(s.value)).Fail?
    requires urls.parse(req.url, cfg.baseUrl).Ok?
    requires urls.parse(KratosLoginLocation(cfg), cfg.baseUrl).Ok?
    ensures var o := HydraLogin(cfg, urls, up, req).outcome;
            && o.Redirect? && o.location.Built?
            && o.location.target.base == urls.parse(KratosLoginLocation(cfg), cfg.baseUrl).value.base
            && o.location.target.query["refresh"] == "true"
            && o.location.target.query["return_to"] == urls.href(urls.parse(req.url, cfg.baseUrl).value)
  {
  }

  /** A login run reaches the error handler exactly when the challenge is
      unusable, the lookup fails, the skip-path accept fails, or the
      fallback's URLs cannot be built. */
  lemma LoginErrorsExactlyWhen(cfg: Config, urls: UrlParser, up: Upstream, req: Request)
    ensures var v := Lookup(req.query, "login_challenge");
            var urlsFail := urls.parse(req.url, cfg.baseUrl).Fail? || urls.parse(KratosLoginLocation(cfg), cfg.baseUrl).Fail?;
            HydraLogin(cfg, urls, up, req).outcome.ToErrorHandler? <==>
              || LoginChallenge(v).None?
              || up.getLogin(v.text).Fail?
              || (up.getLogin(v.text).value.skip && up.acceptLogin(v.text, SkipLogin(up.getLogin(v.text).value)).Fail?)
              || (!up.getLogin(v.text).value.skip && urlsFail &&
                    var s := up.toSession(req.cookie);
                    s.Fail? || s.value.identity.None? || up.acceptLogin(v.text, RememberLogin(s.value)).Fail?)
  {
  }

  /** Express routes HEAD to the consent GET handler; when the consent can
      be skipped, the builder then throws and the run ends at the error
      handler without settling the challenge. */
  lemma HeadSkipConsentFails(up: Upstream, req: Request)
    requires req.verb == "HEAD"
    requires ConsentChallenge(Lookup(req.query, "consent_challenge")).Some?
    requires var ch := Lookup(req.query, "consent_challenge").text;
             up.getConsent(Single(ch)).Ok? && up.getConsent(Single(ch)).value.skip
    ensures var ch := Lookup(req.query, "consent_challenge").text;
            HydraGetConsent(up, req) == Run([GetConsentRequest(Single(ch))], ToErrorHandler(UnsupportedMethod))
  {
  }

  /** A consent form that submits one scope as a plain string grants exactly
      that one scope. */
  lemma SingleScopeGrantedAsList(up: Upstream, req: Request, scope: string)
    requires req.verb == "POST"
    requires Lookup(req.form, "submit") == Single(AllowAccess)
    requires Lookup(req.form, "grant_scope") == Single(scope)
    requires up.getConsent(Lookup(req.form, "challenge")).Ok?
    ensures var r := HydraPostConsent(up, req);
            |r.calls| == 2 && r.calls[1].AcceptConsentRequest?
            && r.calls[1].consent.grantScope == [Text(scope)]
  {
  }

  /** A denied consent is never accepted, and is rejected with the fixed
      error code. */
  lemma DeniedConsentNeverAccepted(up: Upstream, req: Request)
    requires req.verb == "POST"
    requires Lookup(req.form, "submit") != Single(AllowAccess)
    ensures var r := HydraPostConsent(up, req);
            && (forall c :: c in r.calls ==> !c.AcceptConsentRequest? && !c.GetConsentRequest?)
            && |r.calls| == 1 && r.calls[0].RejectConsentRequest?
            && r.calls[0].reject.error == AccessDenied
  {
  }
}
