# JWT login middleware of zeus-admin, modelled in Dafny

This project models the decisions that `pkg/api/middleware/jwt.go` makes for
itself when it configures the JWT middleware of the admin API. That file hands
a set of closures and constants to the `gin-jwt` token library:

- **Claims codec** (`claims.dfy`, module `Claims`). `PayloadFunc` turns a
  `UserClaims{Id, Name}` into a claim map carrying the identity under both
  `id`/`name` and `uid`/`uname`. `IdentityHandler` reads `id` and `name` back.
  `Authorizator` admits exactly `UserClaims` values. Go's `interface{}` values
  are the datatype `Data`: a `UserClaims`, a string or nil. Claim values are
  `Num(int)` or `Str(string)`. The unchecked casts of `IdentityHandler`, which
  panic on a missing or wrongly typed claim, become an `Option` result.
- **Login strategies** (`login.dfy`, module `Login`). `Authenticator` serves
  directory (LDAP) login and standard password login. `AuthenticatorOAuth`
  serves DingTalk OAuth login. Each one does the same steps:
  1. Bind the request.
  2. Build a `LoginLogDto` from the request.
  3. Ask the account service's verifier.
  4. On success, fill in the record's user id and labels, submit it with
     `InsertLoginLog`, and return the user's claims. Otherwise, return an error.

  The account service (`accountService`, shared by all requests) is the class
  `AccountService`. Its verifiers answer with replies fixed when it is built.
  It keeps the list of verifier calls and of submitted login records. Each
  imperative method is proved to return what a pure function of the request
  and the replies says (`AuthenticatorResult`, `AuthenticatorOAuthResult`). It
  is also proved to extend the service's call list and audit log by exactly
  that function's calls and records. The properties are stated on those
  functions.
- **Configuration and dispatch** (`middleware.dfy`, module `Middleware`).
  `JwtAuth` sets these fixed values:
  - realm `Jwt` and signing algorithm RS256;
  - 24-hour token lifetime and 90-day refresh ceiling;
  - identity key `id`;
  - token lookup order: header, then query, then cookie.

  Its `Authenticator` closure sends `LoginOAuth` to the OAuth strategy and every
  other login type to `Authenticator`. `Authenticator` then splits `LoginLdap`
  from everything else. A lemma covers any series of login attempts served by
  one middleware, each with the verifier answers it gets. It states that the
  records those attempts' outcomes submit to the audit log are exactly one per
  granted login, in order, each for the user that login granted. It is stated
  on the outcome functions, not on a sequence of calls to one `AccountService`,
  whose verifier answers are fixed.

Behaviour of the code worth stating outright:
- A failed login writes no audit record; only a successful one does.
- The payload carries four claims: `id`, `name`, `uid` and `uname`.
- An OAuth type other than DingTalk fails with `errors.New("")`, an error with
  an empty message, rather than the token library's authentication-failed error.
- Directory and standard login do not check that the user id is at least 1.
  Only the DingTalk path does.
- There are two cases where the login returns no claims and a nil error:
  - a DingTalk exchange that returns a user with id below 1 and no error;
  - a standard login whose verifier refuses without an error.

  The model keeps both (`ZeroIdExchangeReportsNoError`, `SilentPasswordRefusal`).
  It shows that such a result encodes to an empty payload that no identity can
  be decoded from (`ErrorlessRefusalHasNoIdentity`).

The account package defines the tags `LoginLdap`, `LoginOAuth` and
`OAuthDingTalk`, and that package is not part of this model. The model gives
them stand-in integer values. The middleware only compares against them, so
only their being distinct matters.

## Model

| member | source | states |
|---|---|---|
| `Claims.PayloadFunc` | pkg/api/middleware/jwt.go:31-41 | a `UserClaims` encodes to exactly the keys `id`, `name`, `uid`, `uname`, with `uid` = `id` = the numeric id and `uname` = `name` = the name; any other value encodes to the empty map |
| `Claims.IdentityHandler` | pkg/api/middleware/jwt.go:42-48 | decoding is defined exactly when `name` is present as a string and `id` as a number, and then yields that id and name |
| `Claims.Authorizator` | pkg/api/middleware/jwt.go:55-60 | true exactly when the value is a `UserClaims` |
| `Claims.RoundTrip` | pkg/api/middleware/jwt.go:31-48 | decoding the encoding of any `UserClaims` gives back the same id and name |
| `Claims.RoundTripWithRegisteredClaims` | pkg/api/middleware/jwt.go:31-48 | the round trip still holds when claims other than `id` and `name` are added beside the payload |
| `Claims.DecodeThenEncode` | pkg/api/middleware/jwt.go:31-48 | re-encoding a decoded identity reproduces the `id` and `name` claims it was read from, mirrored under `uid` and `uname` |
| `Claims.DecodedIdentityAuthorized` | pkg/api/middleware/jwt.go:42-60 | every identity that decodes is authorised |
| `Claims.NonClaimsRejected` | pkg/api/middleware/jwt.go:31-60 | a string or nil encodes to no claims, cannot be decoded back, and is not authorised |
| `Login.RequestLog` | pkg/api/middleware/jwt.go:94-100 | the record built from the request carries its user agent, client IP, an empty location, status 1 and "method URI" as operation content |
| `Login.AuthenticatorResult` | pkg/api/middleware/jwt.go:87-129 | a bind error comes back unchanged with "" and no call or record. Otherwise exactly the selected verifier (directory for `LoginLdap`, password otherwise) is called once. Claims are returned exactly when it accepts, and they are that user's id and username. Failure returns nil with `ErrFailedAuthentication` (directory) or the password service's own error. One record, labelled "LDAP Login"/"LDAP Login Success" or "Standard Login"/"Standard Login Success", is written exactly on success and carries the user's id |
| `Login.AuthenticatorOAuthResult` | pkg/api/middleware/jwt.go:131-161 | a bind error comes back unchanged with "". A type other than DingTalk returns "" with an empty-message error and calls nothing. For DingTalk the exchange is called once with the code. Claims are returned exactly when it reports no error and an id of at least 1. Otherwise "" and the exchange's own error, possibly nil, are returned. One record labelled "DingTalk Login"/"DingTalk login success" is written exactly on success and carries the user's id |
| `Login.AccountService.constructor` | pkg/api/middleware/jwt.go:18 | the shared service starts with the given verifier replies, no calls and an empty audit log |
| `Login.AccountService.VerifyAndReturnLdapUserInfo` | pkg/api/middleware/jwt.go:102 | returns the directory verifier's (ok, user) and records one directory call with the bound login form |
| `Login.AccountService.VerifyAndReturnUserInfo` | pkg/api/middleware/jwt.go:115 | returns the password verifier's (ok, err, user) and records one password call with the bound login form |
| `Login.AccountService.VerifyDTAndReturnUserInfo` | pkg/api/middleware/jwt.go:147 | returns the DingTalk exchange's (user, err) and records one exchange call with the code |
| `Login.AccountService.InsertLoginLog` | pkg/api/middleware/jwt.go:107 | appends the record to the audit log and reports an error that callers discard |
| `Login.Authenticator` | pkg/api/middleware/jwt.go:87-129 | the step-by-step method returns what `AuthenticatorResult` says, and extends the service's calls and audit log by exactly its calls and records |
| `Login.AuthenticatorOAuth` | pkg/api/middleware/jwt.go:131-161 | the step-by-step method returns what `AuthenticatorOAuthResult` says, and extends the service's calls and audit log by exactly its calls and records |
| `Login.BindFailureIgnoresVerifiers` | pkg/api/middleware/jwt.go:87-136 | when the body does not bind, the outcome does not depend on what any verifier would answer |
| `Login.UnsupportedProviderFails` | pkg/api/middleware/jwt.go:146-160 | an OAuth type other than DingTalk fails with an empty-message error, whatever the exchange would answer, and without calling it |
| `Login.ZeroIdExchangeReportsNoError` | pkg/api/middleware/jwt.go:147-150 | a DingTalk user with id 0 and no error is refused, and the refusal carries a nil error and writes no record |
| `Login.SilentPasswordRefusal` | pkg/api/middleware/jwt.go:115-128 | a password verifier that refuses with a nil error leaves the login with nil data, a nil error and no record |
| `Middleware.JwtAuth` | pkg/api/middleware/jwt.go:21-70 | RS256 in realm `Jwt`. Lifetime 24 hours and refresh ceiling 90 times that. The identity key is `id`, a claim every encoded identity carries. Lookup order: `Authorization` header, `token` query, `jwt` cookie, with head name `Bearer` |
| `Middleware.AuthenticateResult` | pkg/api/middleware/jwt.go:49-54 | the outcome is exactly `AuthenticatorOAuthResult` for `LoginOAuth` and `AuthenticatorResult` for every other type, so success, errors and records are those paths' own. A request that fails its type's binding is refused with that error. At most the verifier the login type selects is called (OAuth for `LoginOAuth`, directory for `LoginLdap`, password otherwise). One record with that type's labels is written exactly on success. Granted claims are the selected verifier's user |
| `Middleware.Authenticate` | pkg/api/middleware/jwt.go:49-54 | the dispatch method returns what `AuthenticateResult` says and changes the service's calls and audit log accordingly |
| `Middleware.LoginClaimsRoundTrip` | pkg/api/middleware/jwt.go:31-60 | what a login returns is authorised exactly when it wrote an audit record. A granted identity survives encoding plus the library's registered claims and decoding |
| `Middleware.ErrorlessRefusalHasNoIdentity` | pkg/api/middleware/jwt.go:115-149 | a login that returns a nil error but no claims yields an empty payload from which no identity decodes, and writes no record |
| `Middleware.AuditTrailMatchesGranted` | pkg/api/middleware/jwt.go:87-161 | over any series of login attempts, each with its own verifier answers, the records their outcomes submit are exactly one per granted login, in order, each for the id that login granted |

## Left out

- The token library (`gin-jwt`) is not modelled. This covers RS256 signing and verification, key loading from configuration files, token lookup parsing and the `Bearer` prefix, expiry and refresh arithmetic, and the clock. Its code is not part of this model. Only the values handed to it are kept.
- HTTP handling is not modelled. This covers the gin context, binding the request body, reading the user agent and client IP, and writing JSON in `LoginResponse` and `Unauthorized`. The request carries the binding's error, the OAuth fields, the bound login form (an opaque string handed to the directory or password verifier) and the client strings as plain values.
- `Claims.IdentityHandler`: the `id` claim passes through a JSON float64 and is truncated back to an int. This is not modelled. The id is an unbounded integer throughout, so ids beyond 2^53 lose no precision in the model.
- The internals of the account service are not modelled: password, directory and DingTalk verification and storing the login log. These are persistence and network services. Only their replies are modelled, fixed per `AccountService` object. Whether a record whose `InsertLoginLog` reports an error is really stored is unknown. The model's audit log holds every submitted record, and the middleware discards that error.
- Logging with `log.Error` is not modelled, and neither is the error path of building the middleware. Both only write to the log.
- The numeric values of `LoginLdap`, `LoginOAuth` and `OAuthDingTalk` are stand-ins. The package that defines them is not part of this model.
