/** The login and consent delegate for the Hydra authorization server.
    Each handler is one sequential run: it reads the request, calls the
    upstream services one after another, and ends in exactly one outcome
    (the generic error handler, a redirect, or the consent view). A run is
    recorded as the list of upstream calls it made plus that outcome; every
    upstream answer is an input, given by the `Upstream` record. */
module Hydra {
  import opened Values
  import opened Settings

  // ----- what the upstream services hand back -----

  datatype Identity = Identity(id: string)

  /** The identity provider's session, as `toSession` returns it: its own
      identifier (part of the snapshot the login handler forwards as the
      accept-login `context`) and its identity. The identity may be
      missing, in which case `identity.id` throws. */
  datatype Session = Session(id: string, identity: Option<Identity>)

  datatype OAuthClient = OAuthClient(clientId: string, clientName: string)

  datatype LoginRequest = LoginRequest(skip: bool, subject: string)

  datatype ConsentRequest = ConsentRequest(
    skip: bool,
    requestedScope: seq<string>,
    requestedAudience: seq<string>,
    subject: string,
    client: OAuthClient)

  /** The body of every accept/reject answer: where to send the browser next. */
  datatype Completed = Completed(redirectTo: string)

  // ----- what the handlers send upstream -----

  /** An accept-login body; an unset optional field is `None`. */
  datatype AcceptLogin = AcceptLogin(
    subject: string,
    context: Option<Session>,
    remember: Option<bool>,
    rememberFor: Option<int>)

  datatype Claim = IdentityClaim(identity: Option<Identity>) | RoleClaim(role: seq<string>)

  /** Extra claims for the issued tokens, keyed by claim namespace. */
  datatype TokenClaims = TokenClaims(accessToken: map<string, Claim>, idToken: map<string, Claim>)

  datatype AcceptConsent = AcceptConsent(
    grantAudience: seq<string>,
    remember: Option<bool>,
    rememberFor: Option<int>,
    grantScope: seq<Element>,
    session: TokenClaims)

  datatype RejectConsent = RejectConsent(error: string, errorDescription: string)

  /** One call to an upstream service, with the arguments it was given. */
  datatype Call =
    | GetLoginRequest(loginChallenge: string)
    | AcceptLoginRequest(loginChallenge: string, login: AcceptLogin)
    | ToSession(cookie: Option<string>)
    | GetConsentRequest(consentChallenge: FormValue)
    | AcceptConsentRequest(consentChallenge: FormValue, consent: AcceptConsent)
    | RejectConsentRequest(consentChallenge: FormValue, reject: RejectConsent)
  {
    /** The calls that settle a challenge. */
    predicate Resolves()
    {
      AcceptLoginRequest? || AcceptConsentRequest? || RejectConsentRequest?
    }
  }

  /** The upstream services: the authorization server's admin API and the
      identity provider's session lookup, each call answered by a function
      of its arguments. */
  datatype Upstream = Upstream(
    getLogin: string -> Reply<LoginRequest>,
    acceptLogin: (string, AcceptLogin) -> Reply<Completed>,
    toSession: Option<string> -> Reply<Session>,
    getConsent: FormValue -> Reply<ConsentRequest>,
    acceptConsent: (FormValue, AcceptConsent) -> Reply<Completed>,
    rejectConsent: (FormValue, RejectConsent) -> Reply<Completed>)

  /** The answer an upstream service gives to a call that settles a challenge. */
  function ReplyTo(up: Upstream, c: Call): Reply<Completed>
    requires c.Resolves()
  {
    match c
    case AcceptLoginRequest(ch, a) => up.acceptLogin(ch, a)
    case AcceptConsentRequest(ch, a) => up.acceptConsent(ch, a)
    case RejectConsentRequest(ch, a) => up.rejectConsent(ch, a)
  }

  // ----- URLs -----

  /** A parsed URL: everything up to the query, and the query parameters. */
  datatype Url = Url(base: string, query: map<string, string>)

  /** WHATWG URL parsing and serialisation, left uninterpreted:
      `parse(rel, base)` is `new URL(rel, base)` (it throws on an invalid
      URL or base), `href(u)` is `u.toString()`. */
  datatype UrlParser = UrlParser(parse: (string, string) -> Reply<Url>, href: Url -> string)

  /** `url.searchParams.set(key, value)`: the key now maps to `value` alone,
      every other parameter is kept. */
  function SetParam(u: Url, key: string, value: string): (r: Url)
    ensures r.base == u.base
    ensures key in r.query && r.query[key] == value
    ensures r.query.Keys == u.query.Keys + {key}
    ensures forall k :: k in u.query && k != key ==> r.query[k] == u.query[k]
  {
    u.(query := u.query[key := value])
  }

  // ----- requests and outcomes -----

  /** The parts of an Express request the handlers read. `session` is what
      the authentication middleware in front of the consent routes left in
      `req.session`. */
  datatype Request = Request(
    verb: string,
    url: string,
    query: map<string, FormValue>,
    cookie: Option<string>,
    form: map<string, FormValue>,
    session: Option<Session>)

  /** A redirect target: either a URL an upstream answer supplied, passed on
      as it is, or the identity provider's login URL built here. */
  datatype Location = Returned(href: string) | Built(target: Url)

  datatype ConsentView = ConsentView(
    challenge: string,
    requestedScope: seq<string>,
    user: string,
    client: OAuthClient)

  datatype Outcome = ToErrorHandler(message: string) | Redirect(location: Location) | Render(view: ConsentView)

  datatype Run = Run(calls: seq<Call>, outcome: Outcome)

  const LoginChallengeMissing := "ORY Hydra Login flow could not be completed because no ORY Hydra Login Challenge was found in the HTTP request."
  const ConsentChallengeMissing := "Expected consent_challenge to be set."
  const UnsupportedMethod := "Unsupported request method...."
  const AllowAccess := "Allow access"
  const AccessDenied := "access_denied"
  const AccessDeniedDescription := "The resource owner denied the request"
  const LoginRememberFor := 36000
  const IdentityNamespace := "https://public-hydra.dx.dev/identity"
  const ClaimsNamespace := "https://public-hydra.dx.dev/claims"

  /** `res.redirect(String(body.redirect_to))` after an accept or reject
      call; a failed call goes to the error handler. */
  function Settle(reply: Reply<Completed>): (o: Outcome)
    ensures o.Redirect? <==> reply.Ok?
    ensures reply.Ok? ==> o == Redirect(Returned(reply.value.redirectTo))
    ensures reply.Fail? ==> o == ToErrorHandler(reply.error)
  {
    match reply
    case Ok(c) => Redirect(Returned(c.redirectTo))
    case Fail(e) => ToErrorHandler(e)
  }

  // ----- login -----

  /** The login handler's check of `login_challenge`: it must be truthy and
      a string. */
  function LoginChallenge(v: FormValue): (r: Option<string>)
    ensures r.Some? <==> v.Single? && v.text != ""
    ensures r.Some? ==> r.value == v.text
  {
    if !Truthy(v) || !IsString(v) then None else Some(v.text)
  }

  /** Sends the browser to the identity provider's login flow with
      `refresh=true` and `return_to` set to the original request URL made
      absolute against the configured base URL. Either `new URL` can throw;
      the error then reaches the error handler. */
  function RedirectToLogin(cfg: Config, urls: UrlParser, req: Request): (o: Outcome)
    ensures var returnTo := urls.parse(req.url, cfg.baseUrl);
            var redirectTo := urls.parse(KratosLoginLocation(cfg), cfg.baseUrl);
            && (o.Redirect? <==> returnTo.Ok? && redirectTo.Ok?)
            && (returnTo.Fail? ==> o == ToErrorHandler(returnTo.error))
            && (returnTo.Ok? && redirectTo.Fail? ==> o == ToErrorHandler(redirectTo.error))
            && (o.Redirect? ==>
                  && o.location.Built?
                  && o.location.target.base == redirectTo.value.base
                  && o.location.target.query.Keys == redirectTo.value.query.Keys + {"refresh", "return_to"}
                  && o.location.target.query["refresh"] == "true"
                  && o.location.target.query["return_to"] == urls.href(returnTo.value)
                  && forall k :: k in redirectTo.value.query && k !in {"refresh", "return_to"} ==>
                       o.location.target.query[k] == redirectTo.value.query[k])
  {
    match urls.parse(req.url, cfg.baseUrl)
    case Fail(e) => ToErrorHandler(e)
    case Ok(returnTo) =>
      match urls.parse(KratosLoginLocation(cfg), cfg.baseUrl)
      case Fail(e) => ToErrorHandler(e)
      case Ok(redirectTo) =>
        var redirectTo := SetParam(redirectTo, "refresh", "true");
        var redirectTo := SetParam(redirectTo, "return_to", urls.href(returnTo));
        Redirect(Built(redirectTo))
  }

  /** The body sent to accept a login the authorization server says it can skip. */
  function SkipLogin(login: LoginRequest): (a: AcceptLogin)
    ensures a.subject == login.subject
    ensures a.context == None && a.remember == None && a.rememberFor == None
  {
    AcceptLogin(login.subject, None, None, None)
  }

  /** The body sent to accept a login for a resolved identity-provider session. */
  function RememberLogin(s: Session): (a: AcceptLogin)
    requires s.identity.Some?
    ensures a.subject == s.identity.value.id
    ensures a.context == Some(s)
    ensures a.remember == Some(true)
    ensures a.rememberFor == Some(36000)
  {
    AcceptLogin(s.identity.value.id, Some(s), Some(true), Some(LoginRememberFor))
  }

  /** After session resolution: accept the login for the session's identity,
      or, if there is no usable session or the accept fails, send the
      browser to the identity provider's login flow. */
  function LoginWithSession(cfg: Config, urls: UrlParser, up: Upstream, req: Request, ch: string): (r: Run)
    ensures var s := up.toSession(req.cookie);
            var lookup := [GetLoginRequest(ch), ToSession(req.cookie)];
            && (s.Ok? && s.value.identity.Some? ==>
                  var accept := AcceptLogin(s.value.identity.value.id, Some(s.value), Some(true), Some(36000));
                  && accept == RememberLogin(s.value)
                  && r.calls == lookup + [AcceptLoginRequest(ch, accept)]
                  && r.outcome == (if up.acceptLogin(ch, accept).Ok?
                                   then Redirect(Returned(up.acceptLogin(ch, accept).value.redirectTo))
                                   else RedirectToLogin(cfg, urls, req)))
            && (s.Fail? || s.value.identity.None? ==>
                  r == Run(lookup, RedirectToLogin(cfg, urls, req)))
  {
    var lookup := [GetLoginRequest(ch), ToSession(req.cookie)];
    match up.toSession(req.cookie)
    case Ok(s) =>
      if s.identity.Some? then
        var accept := RememberLogin(s);
        match up.acceptLogin(ch, accept)
        case Ok(done) => Run(lookup + [AcceptLoginRequest(ch, accept)], Redirect(Returned(done.redirectTo)))
        case Fail(_) => Run(lookup + [AcceptLoginRequest(ch, accept)], RedirectToLogin(cfg, urls, req))
      else
        Run(lookup, RedirectToLogin(cfg, urls, req))
    case Fail(_) => Run(lookup, RedirectToLogin(cfg, urls, req))
  }

  /** GET /hydra_login. */
  function HydraLogin(cfg: Config, urls: UrlParser, up: Upstream, req: Request): (r: Run)
    // a missing, empty or non-string challenge: no upstream call at all
    ensures LoginChallenge(Lookup(req.query, "login_challenge")).None? ==>
              r == Run([], ToErrorHandler(LoginChallengeMissing))
    ensures LoginChallenge(Lookup(req.query, "login_challenge")).Some? ==>
              var ch := Lookup(req.query, "login_challenge").text;
              var login := up.getLogin(ch);
              && |r.calls| > 0 && r.calls[0] == GetLoginRequest(ch)
              // the lookup fails: error handler
              && (login.Fail? ==> r == Run([GetLoginRequest(ch)], ToErrorHandler(login.error)))
              // skip: accept with the upstream subject and nothing else, no session lookup
              && (login.Ok? && login.value.skip ==>
                    && r.calls == [GetLoginRequest(ch), AcceptLoginRequest(ch, AcceptLogin(login.value.subject, None, None, None))]
                    && r.outcome == Settle(up.acceptLogin(ch, SkipLogin(login.value))))
              // no skip: session resolution decides
              && (login.Ok? && !login.value.skip ==>
                    && |r.calls| > 1 && r.calls[1] == ToSession(req.cookie)
                    && r == LoginWithSession(cfg, urls, up, req, ch))
  {
    match LoginChallenge(Lookup(req.query, "login_challenge"))
    case None => Run([], ToErrorHandler(LoginChallengeMissing))
    case Some(ch) =>
      match up.getLogin(ch)
      case Fail(e) => Run([GetLoginRequest(ch)], ToErrorHandler(e))
      case Ok(login) =>
        if login.skip then
          var accept := SkipLogin(login);
          Run([GetLoginRequest(ch), AcceptLoginRequest(ch, accept)], Settle(up.acceptLogin(ch, accept)))
        else
          LoginWithSession(cfg, urls, up, req, ch)
  }

  // ----- consent -----

  /** The identity the authentication middleware attached to the request
      (`req.session?.identity`). */
  function CallerIdentity(req: Request): (r: Option<Identity>)
    ensures req.session.None? ==> r.None?
    ensures req.session.Some? ==> r == req.session.value.identity
  {
    if req.session.Some? then req.session.value.identity else None
  }

  /** The token claims every accepted consent carries: the caller's
      identity for both tokens, and `role: ['admin']` for the ID token only. */
  function SessionClaims(identity: Option<Identity>): (s: TokenClaims)
    ensures s.accessToken.Keys == {IdentityNamespace}
    ensures s.idToken.Keys == {IdentityNamespace, ClaimsNamespace}
    ensures s.accessToken[IdentityNamespace] == s.idToken[IdentityNamespace] == IdentityClaim(identity)
    ensures s.idToken[ClaimsNamespace] == RoleClaim(["admin"])
    ensures forall k :: k in s.accessToken ==> !s.accessToken[k].RoleClaim?
  {
    TokenClaims(
      map[IdentityNamespace := IdentityClaim(identity)],
      map[IdentityNamespace := IdentityClaim(identity), ClaimsNamespace := RoleClaim(["admin"])])
  }

  /** The accept-consent body, or the error thrown for a request method
      other than POST or GET. A form post grants what the form says and
      remembers the choice for ever; a skipped consent grants what was
      requested. */
  function AcceptConsentPayload(consent: ConsentRequest, req: Request): (r: Reply<AcceptConsent>)
    ensures r.Fail? <==> req.verb != "POST" && req.verb != "GET"
    ensures r.Fail? ==> r.error == UnsupportedMethod
    ensures r.Ok? ==>
              && r.value.grantAudience == consent.requestedAudience
              && r.value.session == SessionClaims(CallerIdentity(req))
    ensures req.verb == "POST" ==>
              && r.value.remember == Some(Truthy(Lookup(req.form, "remember")))
              && r.value.rememberFor == Some(0)
              && r.value.grantScope == ConcatOnto(Lookup(req.form, "grant_scope"))
    ensures req.verb == "GET" ==>
              && r.value.remember == None
              && r.value.rememberFor == None
              && r.value.grantScope == Texts(consent.requestedScope)
              && Strings(r.value.grantScope) == consent.requestedScope
  {
    var audience := consent.requestedAudience;
    var claims := SessionClaims(CallerIdentity(req));
    if req.verb == "POST" then
      Ok(AcceptConsent(audience, Some(Truthy(Lookup(req.form, "remember"))), Some(0),
                       ConcatOnto(Lookup(req.form, "grant_scope")), claims))
    else if req.verb == "GET" then
      StringsOfTexts(consent.requestedScope);
      Ok(AcceptConsent(audience, None, None, Texts(consent.requestedScope), claims))
    else
      Fail(UnsupportedMethod)
  }

  /** `AcceptConsent`, building the request object one field after another
      as the handler does. */
  method BuildAcceptConsent(consent: ConsentRequest, req: Request) returns (r: Reply<AcceptConsent>)
    ensures r == AcceptConsentPayload(consent, req)
  {
    var accept := AcceptConsent(consent.requestedAudience, None, None, [], TokenClaims(map[], map[]));
    if req.verb == "POST" {
      accept := accept.(remember := Some(Truthy(Lookup(req.form, "remember"))));
      accept := accept.(rememberFor := Some(0));
      accept := accept.(grantScope := ConcatOnto(Lookup(req.form, "grant_scope")));
    } else if req.verb == "GET" {
      accept := accept.(grantScope := Texts(consent.requestedScope));
    } else {
      return Fail(UnsupportedMethod);
    }
    accept := accept.(session := SessionClaims(CallerIdentity(req)));
    return Ok(accept);
  }

  /** What `AcceptConsent` does: build the body and, unless that throws,
      send it. The calls made, and the settled answer. */
  datatype Step = Step(calls: seq<Call>, reply: Reply<Completed>)

  function AcceptConsentStep(challenge: FormValue, consent: ConsentRequest, req: Request, up: Upstream): (s: Step)
    ensures AcceptConsentPayload(consent, req).Fail? ==>
              s == Step([], Fail(UnsupportedMethod))
    ensures AcceptConsentPayload(consent, req).Ok? ==>
              var body := AcceptConsentPayload(consent, req).value;
              s == Step([AcceptConsentRequest(challenge, body)], up.acceptConsent(challenge, body))
  {
    match AcceptConsentPayload(consent, req)
    case Fail(e) => Step([], Fail(e))
    case Ok(body) => Step([AcceptConsentRequest(challenge, body)], up.acceptConsent(challenge, body))
  }

  /** The consent GET handler's check of `consent_challenge`: a non-string
      reads as `''`, and `''` is refused. */
  function ConsentChallenge(v: FormValue): (r: Option<string>)
    ensures r.Some? <==> v.Single? && v.text != ""
    ensures r.Some? ==> r.value == v.text
  {
    var challenge := if IsString(v) then v.text else "";
    if !Truthy(Single(challenge)) then None else Some(challenge)
  }

  /** GET /hydra_consent. Express also routes HEAD requests here. */
  function HydraGetConsent(up: Upstream, req: Request): (r: Run)
    requires req.verb == "GET" || req.verb == "HEAD"
    ensures ConsentChallenge(Lookup(req.query, "consent_challenge")).None? ==>
              r == Run([], ToErrorHandler(ConsentChallengeMissing))
    ensures ConsentChallenge(Lookup(req.query, "consent_challenge")).Some? ==>
              var ch := Lookup(req.query, "consent_challenge").text;
              var consent := up.getConsent(Single(ch));
              && |r.calls| > 0 && r.calls[0] == GetConsentRequest(Single(ch))
              && (consent.Fail? ==> r == Run([GetConsentRequest(Single(ch))], ToErrorHandler(consent.error)))
              // skip on GET: grant every requested scope, then follow the answer
              && (consent.Ok? && consent.value.skip && req.verb == "GET" ==>
                    && |r.calls| == 2
                    && r.calls[1].AcceptConsentRequest?
                    && r.calls[1].consentChallenge == Single(ch)
                    && Strings(r.calls[1].consent.grantScope) == consent.value.requestedScope
                    && r.calls[1] == AcceptConsentRequest(Single(ch), AcceptConsentPayload(consent.value, req).value)
                    && r.calls[1].consent.grantScope == Texts(consent.value.requestedScope)
                    && r.calls[1].consent.grantAudience == consent.value.requestedAudience
                    && r.calls[1].consent.remember == None
                    && r.calls[1].consent.rememberFor == None
                    && r.calls[1].consent.session == SessionClaims(CallerIdentity(req))
                    && r.outcome == Settle(up.acceptConsent(Single(ch), r.calls[1].consent)))
              // no skip: show the consent form, settle nothing
              && (consent.Ok? && !consent.value.skip ==>
                    r == Run([GetConsentRequest(Single(ch))],
                             Render(ConsentView(ch, consent.value.requestedScope, consent.value.subject, consent.value.client))))
  {
    match ConsentChallenge(Lookup(req.query, "consent_challenge"))
    case None => Run([], ToErrorHandler(ConsentChallengeMissing))
    case Some(ch) =>
      var get := GetConsentRequest(Single(ch));
      match up.getConsent(Single(ch))
      case Fail(e) => Run([get], ToErrorHandler(e))
      case Ok(consent) =>
        if consent.skip then
          var step := AcceptConsentStep(Single(ch), consent, req, up);
          Run([get] + step.calls, Settle(step.reply))
        else
          Run([get], Render(ConsentView(ch, consent.requestedScope, consent.subject, consent.client)))
  }

  /** The rejection sent when the user did not press "Allow access". */
  const Denial := RejectConsent(AccessDenied, AccessDeniedDescription)

  /** POST /hydra_consent. */
  function HydraPostConsent(up: Upstream, req: Request): (r: Run)
    requires req.verb == "POST"
    // anything but the exact "Allow access" label: reject, and only that
    ensures Lookup(req.form, "submit") != Single(AllowAccess) ==>
              var ch := Lookup(req.form, "challenge");
              r == Run([RejectConsentRequest(ch, RejectConsent("access_denied", "The resource owner denied the request"))],
                       Settle(up.rejectConsent(ch, Denial)))
    ensures Lookup(req.form, "submit") == Single(AllowAccess) ==>
              var ch := Lookup(req.form, "challenge");
              var consent := up.getConsent(ch);
              && |r.calls| > 0 && r.calls[0] == GetConsentRequest(ch)
              && (consent.Fail? ==> r == Run([GetConsentRequest(ch)], ToErrorHandler(consent.error)))
              && (consent.Ok? ==>
                    && |r.calls| == 2
                    && r.calls[1].AcceptConsentRequest?
                    && r.calls[1].consentChallenge == ch
                    && r.calls[1].consent.grantAudience == consent.value.requestedAudience
                    && r.calls[1].consent.grantScope == ConcatOnto(Lookup(req.form, "grant_scope"))
                    && r.calls[1].consent.remember == Some(Truthy(Lookup(req.form, "remember")))
                    && r.calls[1].consent.rememberFor == Some(0)
                    && r.calls[1].consent.session == SessionClaims(CallerIdentity(req))
                    && r.calls[1] == AcceptConsentRequest(ch, AcceptConsentPayload(consent.value, req).value)
                    && r.outcome == Settle(up.acceptConsent(ch, r.calls[1].consent)))
  {
    var challenge := Lookup(req.form, "challenge");
    if Lookup(req.form, "submit") != Single(AllowAccess) then
      Run([RejectConsentRequest(challenge, Denial)], Settle(up.rejectConsent(challenge, Denial)))
    else
      var get := GetConsentRequest(challenge);
      match up.getConsent(challenge)
      case Fail(e) => Run([get], ToErrorHandler(e))
      case Ok(consent) =>
        var step := AcceptConsentStep(challenge, consent, req, up);
        Run([get] + step.calls, Settle(step.reply))
  }
}
