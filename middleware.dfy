/**
 * `JwtAuth`: the fixed configuration of the JWT middleware and the
 * `Authenticator` closure that picks a login strategy from the login type the
 * middleware was built for. The token library that consumes this
 * configuration (signing, token lookup, expiry and refresh) is not part of
 * this model; what is modelled is what the middleware hands to it and how the
 * login path it configures connects to the claims codec.
 */
module Middleware {
  import opened Claims
  import opened Login

  /** Durations are in seconds. */
  const Hour: nat := 3600

  /** Token lifetime and refresh ceiling. */
  const Timeout: nat := Hour * 24
  const MaxRefresh: nat := Hour * 24 * 90

  /** A place the token library looks for a token. */
  datatype TokenSource = Header(name: string) | Query(name: string) | Cookie(name: string)

  /** The settings `JwtAuth` gives the token library. */
  datatype JwtMiddleware = JwtMiddleware(
    realm: string,
    signingAlgorithm: string,
    timeout: nat,
    maxRefresh: nat,
    identityKey: string,
    tokenLookup: seq<TokenSource>,
    tokenHeadName: string,
    loginType: int)

  /**
   * `JwtAuth`: tokens signed with RS256 live 24 hours and may be refreshed up
   * to 90 days; the identity key is `id`, one of the claims the payload carries;
   * tokens are looked up in the Authorization header, then the `token` query
   * parameter, then the `jwt` cookie.
   */
  function JwtAuth(loginType: int): (mw: JwtMiddleware)
    ensures mw.realm == "Jwt" && mw.signingAlgorithm == "RS256"
    ensures mw.timeout == 24 * Hour && mw.maxRefresh == 90 * mw.timeout
    ensures mw.identityKey == "id"
    ensures forall u: UserClaims :: mw.identityKey in PayloadFunc(UserClaimsData(u))
    ensures mw.tokenLookup == [Header("Authorization"), Query("token"), Cookie("jwt")]
    ensures mw.tokenHeadName == "Bearer"
    ensures mw.loginType == loginType
  {
    JwtMiddleware("Jwt", "RS256", Timeout, MaxRefresh, "id",
                  [Header("Authorization"), Query("token"), Cookie("jwt")], "Bearer", loginType)
  }

  /** The verifier a login type selects. */
  function VerifierFor(loginType: int, c: Request): Call
  {
    if loginType == LoginOAuth then DingTalkExchange(c.oauth.code)
    else if loginType == LoginLdap then LdapVerify(c.loginForm)
    else PasswordVerify(c.loginForm)
  }

  /** The platform and result labels of the record a successful login writes. */
  function Labels(loginType: int): (string, string)
  {
    if loginType == LoginOAuth then ("DingTalk Login", "DingTalk login success")
    else if loginType == LoginLdap then ("LDAP Login", "LDAP Login Success")
    else ("Standard Login", "Standard Login Success")
  }

  /** The binding that decides whether a login request of this type is even looked at. */
  function BindErr(loginType: int, c: Request): Error
  {
    if loginType == LoginOAuth then c.oauthBindErr else c.loginBindErr
  }

  /**
   * The `Authenticator` closure of `JwtAuth`: OAuth login for `LoginOAuth`,
   * `Authenticator` for every other type. Only the verifier the type selects
   * may be asked, and a request that fails to bind is refused before that.
   */
  function AuthenticateResult(loginType: int, c: Request, ldap: LdapReply, pwd: PasswordReply, dt: DingTalkReply): (r: Outcome)
    ensures loginType == LoginOAuth ==> r == AuthenticatorOAuthResult(c, dt)
    ensures loginType != LoginOAuth ==> r == AuthenticatorResult(c, loginType, ldap, pwd)
    ensures BindErr(loginType, c) != Nil ==> r == Refused(BindErr(loginType, c))
    ensures r.calls == [] || r.calls == [VerifierFor(loginType, c)]
    ensures AuditOnSuccessOnly(c, r)
    ensures Labelled(r, Labels(loginType).0, Labels(loginType).1)
    ensures r.data.UserClaimsData? ==>
              r.data.claims == ClaimsOf(if loginType == LoginOAuth then dt.user
                                        else if loginType == LoginLdap then ldap.user
                                        else pwd.user)
  {
    if loginType == LoginOAuth then AuthenticatorOAuthResult(c, dt)
    else AuthenticatorResult(c, loginType, ldap, pwd)
  }

  /** The `Authenticator` closure run against the shared account service. */
  method Authenticate(loginType: int, c: Request, svc: AccountService) returns (data: Data, err: Error)
    modifies svc
    ensures var r := AuthenticateResult(loginType, c, svc.ldapReply, svc.passwordReply, svc.dingTalkReply);
            && data == r.data && err == r.err
            && svc.calls == old(svc.calls) + r.calls
            && svc.loginLogs == old(svc.loginLogs) + r.audit
  {
    if loginType == LoginOAuth {
      data, err := AuthenticatorOAuth(c, svc);
      return;
    }
    data, err := Authenticator(c, loginType, svc);
  }

  /**
   * A login's claims survive the token: whatever the login returns is
   * authorised exactly when it wrote an audit record, and then encoding it,
   * adding the library's registered claims and decoding gives it back.
   */
  lemma LoginClaimsRoundTrip(loginType: int, c: Request, ldap: LdapReply, pwd: PasswordReply, dt: DingTalkReply,
                             registered: ClaimMap)
    requires "id" !in registered && "name" !in registered
    ensures var r := AuthenticateResult(loginType, c, ldap, pwd, dt);
            && (Authorizator(r.data) <==> |r.audit| == 1)
            && (r.data.UserClaimsData? ==>
                  IdentityHandler(PayloadFunc(r.data) + registered) == Some(r.data.claims))
  {
    var r := AuthenticateResult(loginType, c, ldap, pwd, dt);
    if r.data.UserClaimsData? {
      RoundTripWithRegisteredClaims(r.data.claims, registered);
    }
  }

  /**
   * A login that reports no error but returns no claims (a silent refusal by
   * the password verifier, or a DingTalk user with id below 1) leaves the
   * token library an empty payload, from which no identity can be decoded.
   */
  lemma ErrorlessRefusalHasNoIdentity(loginType: int, c: Request, ldap: LdapReply, pwd: PasswordReply, dt: DingTalkReply)
    requires var r := AuthenticateResult(loginType, c, ldap, pwd, dt);
             r.err == Nil && !r.data.UserClaimsData?
    ensures var r := AuthenticateResult(loginType, c, ldap, pwd, dt);
            PayloadFunc(r.data) == map[] && IdentityHandler(PayloadFunc(r.data)).None? && r.audit == []
  {
    var r := AuthenticateResult(loginType, c, ldap, pwd, dt);
    NonClaimsRejected(r.data);
  }

  /** One login request together with the answers its verifiers give. */
  datatype Attempt = Attempt(c: Request, ldap: LdapReply, pwd: PasswordReply, dt: DingTalkReply)

  function AttemptResult(loginType: int, a: Attempt): Outcome
  {
    AuthenticateResult(loginType, a.c, a.ldap, a.pwd, a.dt)
  }

  /** The records a series of login attempts submits to the audit log, in order. */
  function AuditTrail(loginType: int, attempts: seq<Attempt>): seq<LoginLog>
  {
    if attempts == [] then []
    else AuditTrail(loginType, attempts[..|attempts| - 1]) + AttemptResult(loginType, attempts[|attempts| - 1]).audit
  }

  /** The identities a series of login attempts grants, in order. */
  function Granted(loginType: int, attempts: seq<Attempt>): seq<UserClaims>
  {
    if attempts == [] then []
    else
      var r := AttemptResult(loginType, attempts[|attempts| - 1]);
      Granted(loginType, attempts[..|attempts| - 1]) + (if r.data.UserClaimsData? then [r.data.claims] else [])
  }

  /**
   * For any series of login attempts served by one middleware, each with the
   * verifier answers it gets, the records the attempts submit are exactly
   * one per granted login, in the same order, each for the user that login
   * granted.
   */
  lemma {:induction false} AuditTrailMatchesGranted(loginType: int, attempts: seq<Attempt>)
    ensures |AuditTrail(loginType, attempts)| == |Granted(loginType, attempts)|
    ensures forall i :: 0 <= i < |Granted(loginType, attempts)| ==>
              AuditTrail(loginType, attempts)[i].userId == Granted(loginType, attempts)[i].id
  {
    if attempts != [] {
      var prefix := attempts[..|attempts| - 1];
      AuditTrailMatchesGranted(loginType, prefix);
      var r := AttemptResult(loginType, attempts[|attempts| - 1]);
      assert AuditOnSuccessOnly(attempts[|attempts| - 1].c, r);
    }
  }
}
