# Hydra login/consent delegate — a Dafny model

This project models the login and consent delegate of a small login-and-consent
app for the Ory Hydra authorization server, backed by the Ory Kratos identity
provider (`src/routes/hydra.ts`). Hydra hands a browser to this app with a
login or consent challenge; the app looks the challenge up, asks Kratos whether
the browser has a session, and then accepts or rejects the challenge,
redirects to Kratos' login page, or renders the consent form.

Each handler is modelled as a function that returns a `Run`: the list of
upstream calls it made (`Call`, with the payload each was sent) and its single
`Outcome` (`ToErrorHandler`, `Redirect` or `Render`). Every upstream answer is
an input: the `Upstream` record gives each Hydra admin operation and Kratos'
`toSession` as a function from its arguments to a `Reply` (a value or the error
it rejects with). URL parsing and serialisation are the uninterpreted
parameters of a `UrlParser` record; a URL is a base plus a query-parameter map.

Modules:

- `Values` (`values.dfy`): query and form values (`FormValue`), JavaScript
  truthiness, `[].concat(x)`.
- `Settings` (`settings.dfy`): trailing-slash stripping and the `config` object.
- `Hydra` (`hydra.dfy`): payloads, call trace, `redirectToLogin`, the three
  handlers and the accept-consent builder.
- `HydraProperties` (`properties.dfy`): properties every run of a handler has.

Behaviour of the code worth noting:

- `BASE_URL` is used as it is. Only the Hydra admin URL and the two Kratos URLs
  lose their trailing slashes.
- The login handler also refuses an empty `login_challenge`.
- If a login is not skipped, two failures both lead to Kratos' login page: a
  failed session lookup, and a failed accept after a good lookup. A session
  without an identity leads there too, because reading its id throws.
- Building the login-page URLs can itself throw (`new URL` with an invalid
  base, such as the empty `BASE_URL`). That error reaches the error handler.
- The "unsupported method" error of the accept-consent builder can happen.
  Express routes HEAD requests to the GET consent handler, so a HEAD request
  for a skippable consent ends at the error handler
  (`HydraProperties.HeadSkipConsentFails`).

## Model

| member | source | states |
|---|---|---|
| `Settings.StripTrailingSlashes` | src/routes/hydra.ts:38-42 | the result is a prefix of the input, only `/` characters were removed, and it does not end in `/` |
| `Settings.StripCutsAtLeftmostMatch` | src/routes/hydra.ts:38 | a prefix `s[..i]` is the result exactly when everything from `i` on is `/` and no earlier cut has that property; this is the leftmost match of `/\/+$/` |
| `Settings.StripIdempotent` | src/routes/hydra.ts:41 | stripping an already stripped URL changes nothing |
| `Settings.StripIgnoresAppendedSlashes` | src/routes/hydra.ts:42 | appending any number of `/` to a URL does not change its normalised form |
| `Settings.LoadConfig` | src/routes/hydra.ts:35-45 | `BASE_URL` is kept verbatim, an unset variable reads as `''`, and the three upstream URLs are stripped and never end in `/` |
| `Settings.OneSlashAtJoin` | src/routes/hydra.ts:64-67 | the Kratos login location has exactly one `/` where the configured URL meets `/self-service/login/browser`, and it starts with the configured URL |
| `Values.ConcatOnto` | src/routes/hydra.ts:203 | `[].concat(x)`: a string gives a one-element list, an array is copied element for element, a missing field gives `[undefined]` |
| `Values.ConcatKeepsSubmitted` | src/routes/hydra.ts:203 | the coerced list holds exactly the submitted strings, in order, and holds `undefined` exactly when the field was missing |
| `Values.ConcatForgetsShape` | src/routes/hydra.ts:203 | a single string and a one-element array coerce to the same list |
| `Values.StringsOfTexts` | src/routes/hydra.ts:207 | the requested scopes granted on the GET path read back as exactly the requested list |
| `Hydra.SetParam` | src/routes/hydra.ts:68-69 | `searchParams.set` makes the key map to the value and keeps every other parameter |
| `Hydra.Settle` | src/routes/hydra.ts:101 | a successful accept/reject redirects to the returned `redirect_to` unchanged; a failed one goes to the error handler |
| `Values.IsString` | src/routes/hydra.ts:18 | `isString` holds of a single string and of nothing else |
| `Values.Truthy` | src/routes/hydra.ts:197 | `Boolean(x)`: a missing field and `''` are false, any other string and every array are true |
| `Settings.EnvOr` | src/routes/hydra.ts:36-42 | the environment variable's value when it is set, `''` when it is not |
| `Settings.KratosLoginLocation` | src/routes/hydra.ts:65 | the login location is the stripped Kratos browser URL followed by `/self-service/login/browser` |
| `Hydra.SkipLogin` | src/routes/hydra.ts:96-98 | the skip-path accept body carries the upstream subject and no context, remember or remember_for |
| `Hydra.RememberLogin` | src/routes/hydra.ts:107-112 | the session-path accept body carries the identity's id as subject, the session as context, `remember = true` and `remember_for = 36000` |
| `Hydra.CallerIdentity` | src/routes/hydra.ts:216 | `req.session?.identity`: the session's identity, or nothing when there is no session |
| `Hydra.LoginChallenge` | src/routes/hydra.ts:79-85 | `login_challenge` is accepted exactly when it is a non-empty string, and then as it is |
| `Hydra.RedirectToLogin` | src/routes/hydra.ts:51-73 | the redirect is to the resolved Kratos login location with `refresh=true` and `return_to` set to the request URL resolved against `BASE_URL`; it happens exactly when both URLs parse, and a parse error reaches the error handler |
| `Hydra.LoginWithSession` | src/routes/hydra.ts:104-123 | with a session that has an identity, the login is accepted with subject = that identity's id, context = the session, `remember = true` and `remember_for = 36000`, each written out; on success the browser goes to the returned URL, otherwise, and when there is no usable session, to Kratos' login page |
| `Hydra.HydraLogin` | src/routes/hydra.ts:75-126 | a bad challenge makes no call and goes to the error handler; a failed lookup goes to the error handler; on skip the only calls are the lookup and an accept with just the upstream subject, with no session lookup; otherwise the session lookup follows the lookup |
| `Hydra.SessionClaims` | src/routes/hydra.ts:213-227 | the caller's identity appears under both the access-token and ID-token claims; `role: ['admin']` appears under the ID token only |
| `Hydra.AcceptConsentPayload` | src/routes/hydra.ts:189-210 | the audience is echoed; POST takes `remember` from the form's truthiness, `remember_for = 0` and the coerced form scopes; GET grants the requested scopes verbatim and sets no remember fields; any other method throws `Unsupported request method....` |
| `Hydra.BuildAcceptConsent` | src/routes/hydra.ts:189-228 | building the body field after field gives the same body, or the same error, as `AcceptConsentPayload` |
| `Hydra.AcceptConsentStep` | src/routes/hydra.ts:184-229 | when the body can be built, exactly one accept-consent call is made with it; when it cannot, no call is made |
| `Hydra.ConsentChallenge` | src/routes/hydra.ts:130-135 | `consent_challenge` is accepted exactly when it is a non-empty string |
| `Hydra.HydraGetConsent` | src/routes/hydra.ts:128-158 | a bad challenge makes no call; on a GET skip the one accept call carries exactly the body the builder makes: the requested scopes verbatim, the requested audience, no remember fields, and the identity and `role: ['admin']` claims; the browser follows the answer; without skip the view holds exactly the challenge, requested scopes, subject and client, and nothing is accepted or rejected |
| `Hydra.HydraPostConsent` | src/routes/hydra.ts:160-182 | unless `submit` is exactly `Allow access`, the only call is a reject with `access_denied` / `The resource owner denied the request`; otherwise the consent is looked up and then accepted with exactly the body the builder makes: the form's coerced scopes, the form's remember flag, `remember_for = 0`, the requested audience, and the identity and `role: ['admin']` claims |
| `HydraProperties.ChallengeChecksAgree` | src/routes/hydra.ts:130-135 | the consent GET check and the login check accept the same challenge values |
| `HydraProperties.LoginSettlesOnce` | src/routes/hydra.ts:92-125 | a login run settles its challenge at most once and only last, redirects to an upstream URL exactly when that settling call succeeded and to that URL unchanged, and never accepts a challenge it did not look up |
| `HydraProperties.GetConsentSettlesOnce` | src/routes/hydra.ts:137-157 | the same for the consent GET handler |
| `HydraProperties.PostConsentSettlesOnce` | src/routes/hydra.ts:165-181 | the same for the consent POST handler |
| `HydraProperties.LoginFallbackIsKratosLogin` | src/routes/hydra.ts:117-123 | without skip, a failed session lookup, a missing identity or a failed accept redirects to Kratos' login page with `refresh=true` and `return_to`, never to the error handler, when both URLs parse |
| `HydraProperties.LoginErrorsExactlyWhen` | src/routes/hydra.ts:79-125 | a login run reaches the error handler exactly when the challenge is bad, the lookup fails, the skip-path accept fails, or the fallback's URLs cannot be built |
| `HydraProperties.HeadSkipConsentFails` | src/routes/hydra.ts:204-209 | a HEAD request for a skippable consent ends at the error handler with `Unsupported request method....` after only the lookup |
| `HydraProperties.SingleScopeGrantedAsList` | src/routes/hydra.ts:203 | a form that submits one scope as a plain string grants exactly that one scope |
| `HydraProperties.DeniedConsentNeverAccepted` | src/routes/hydra.ts:165-174 | a denied consent makes one call, a reject with `access_denied`, and no lookup and no accept |

## Left out

- `safeStringify` is not modelled. It depends on `JSON.stringify` replacer semantics, and nothing in the file uses it.
- Route registration, the `urlencoded` middleware and `requireAuth` are not modelled. The `../pkg` module is not part of this model. The handlers' `requires` on the request method stand for the routing on lines 236-238, which sends GET and HEAD to the consent GET handler and POST to the POST handler.
- The SDK clients' HTTP behaviour is not modelled. Each call is only an argument-to-answer function; retries, timeouts and the SDK's own argument checks are not covered.
- WHATWG URL parsing, percent-encoding and `toString` are uninterpreted parameters.
- Query parameters are a map. The order of `URLSearchParams` and its repeated keys are not modelled.
- Reading `process.env` is not modelled. The environment is a map parameter.
- `console.debug` logging, the log text in `redirectToLogin`, and promise scheduling are not modelled. Each handler is one sequential run.
- A failure of `res.redirect` or `res.render` itself is not modelled.
- Query and form fields are missing, a string, or an array of strings. The nested objects that the query-string parser can also produce are not modelled.
- Upstream responses are taken as typed. Optional fields such as `requested_scope` are always present, and `String(x)` on the upstream strings is the identity.
- Sessions and identities keep only their ids and the session's identity. Every other field of a Kratos session and identity is dropped. The code sends the whole session as the login `context` and the whole identity as a token claim; the model's versions of both carry only these ids.
- Single use of challenges and replay rejection belong to the authorization server, and are not modelled.
- `welcome.ts`, `500.ts`, `theme.ts` and `bootstrap.ts` are views, constants and telemetry set-up. They are not part of this model.
