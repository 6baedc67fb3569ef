/**
 * The two login strategies of the JWT middleware: `Authenticator` (directory
 * and standard password login) and `AuthenticatorOAuth` (DingTalk OAuth).
 *
 * Each one binds the request body, prepares a login-log record from the
 * request, asks an external verifier, and then either fills in the record,
 * submits it to the audit log and returns the user's claims, or returns an
 * error. The verifiers and the audit log belong to the account service, which
 * is modelled by `AccountService`: its answers are fixed when it is built and
 * it records which verifier was asked and which records were submitted.
 */
module Login {
  import opened Claims

  /**
   * A Go `error` value: nil, the token library's `ErrFailedAuthentication`,
   * or any other error, known by its message (`errors.New("")` is `Message("")`).
   */
  datatype Error = Nil | ErrFailedAuthentication | Message(text: string)

  // The login and OAuth type tags are defined in the account package, which is
  // not part of this model. Their numeric values here stand in for the real
  // ones; the middleware only compares against them, so only their being
  // distinct matters.
  const LoginLdap: int := 3
  const LoginOAuth: int := 2
  const OAuthDingTalk: int := 1

  /** The OAuth form fields: the provider type and the authorisation code. */
  datatype OAuthForm = OAuthForm(kind: int, code: string)

  /**
   * What the middleware reads from an HTTP login request. Binding the body
   * is not modelled: the request carries the error that binding it into a
   * login form (`loginBindErr`) or into an OAuth form (`oauthBindErr`) gives,
   * `Nil` when binding succeeds, and the forms binding yields. The login form
   * is opaque to the middleware, which only hands it to a verifier.
   */
  datatype Request = Request(
    httpMethod: string,
    requestUri: string,
    userAgent: string,
    clientIp: string,
    loginBindErr: Error,
    oauthBindErr: Error,
    loginForm: string,
    oauth: OAuthForm)

  /** The user record a verifier returns. */
  datatype User = User(id: int, username: string)

  /** Answers of the three verifiers of the account service. */
  datatype LdapReply = LdapReply(ok: bool, user: User)
  datatype PasswordReply = PasswordReply(ok: bool, err: Error, user: User)
  datatype DingTalkReply = DingTalkReply(user: User, err: Error)

  /** A call to one of the verifiers, with what it was handed. */
  datatype Call = LdapVerify(form: string) | PasswordVerify(form: string) | DingTalkExchange(code: string)

  /** `dto.LoginLogDto`: one audit record. */
  datatype LoginLog = LoginLog(
    userId: int,
    client: string,
    ip: string,
    ipLocation: string,
    loginStatus: int,
    operationContent: string,
    platform: string,
    loginResult: string)

  /** Everything one login attempt does: its two results, the calls and the audit writes. */
  datatype Outcome = Outcome(data: Data, err: Error, calls: seq<Call>, audit: seq<LoginLog>)

  /** The record as first built from the request; the other fields keep Go's zero values. */
  function RequestLog(c: Request): (log: LoginLog)
    ensures log.client == c.userAgent && log.ip == c.clientIp
    ensures log.ipLocation == "" && log.loginStatus == 1
    ensures log.operationContent == c.httpMethod + " " + c.requestUri
  {
    LoginLog(0, c.userAgent, c.clientIp, "", 1, c.httpMethod + " " + c.requestUri, "", "")
  }

  /** The claims of a verified user. */
  function ClaimsOf(u: User): UserClaims
  {
    UserClaims(u.id, u.username)
  }

  /**
   * At most one audit record is written, exactly when claims are returned,
   * and then with no error and for the user the claims name, carrying the
   * fixed status 1, no location and the request's own client data.
   */
  predicate AuditOnSuccessOnly(c: Request, r: Outcome)
  {
    && |r.audit| <= 1
    && (|r.audit| == 1 <==> r.data.UserClaimsData?)
    && (r.data.UserClaimsData? ==>
          && r.err == Nil
          && r.audit[0].userId == r.data.claims.id
          && r.audit[0].loginStatus == 1
          && r.audit[0].ipLocation == ""
          && r.audit[0].client == c.userAgent
          && r.audit[0].ip == c.clientIp
          && r.audit[0].operationContent == c.httpMethod + " " + c.requestUri)
  }

  /** A successful attempt's record carries these two labels. */
  predicate Labelled(r: Outcome, platform: string, result: string)
  {
    r.data.UserClaimsData? ==> |r.audit| == 1 && r.audit[0].platform == platform && r.audit[0].loginResult == result
  }

  /** A refusal that returns "" and the given error, having asked no verifier and written no record. */
  function Refused(err: Error): Outcome
  {
    Outcome(StringData(""), err, [], [])
  }

  /**
   * What `Authenticator` does for a login type other than OAuth, given the
   * answers the directory and password verifiers would give.
   */
  function AuthenticatorResult(c: Request, loginType: int, ldap: LdapReply, pwd: PasswordReply): (r: Outcome)
    ensures c.loginBindErr != Nil ==> r == Refused(c.loginBindErr)
    ensures c.loginBindErr == Nil ==> r.calls == [if loginType == LoginLdap then LdapVerify(c.loginForm) else PasswordVerify(c.loginForm)]
    ensures r.data.UserClaimsData? <==> c.loginBindErr == Nil && (if loginType == LoginLdap then ldap.ok else pwd.ok)
    ensures r.data.UserClaimsData? ==> r.data.claims == ClaimsOf(if loginType == LoginLdap then ldap.user else pwd.user)
    ensures c.loginBindErr == Nil && !r.data.UserClaimsData? ==>
              r.data == NilData && r.err == (if loginType == LoginLdap then ErrFailedAuthentication else pwd.err)
    ensures AuditOnSuccessOnly(c, r)
    ensures loginType == LoginLdap ==> Labelled(r, "LDAP Login", "LDAP Login Success")
    ensures loginType != LoginLdap ==> Labelled(r, "Standard Login", "Standard Login Success")
  {
    if c.loginBindErr != Nil then
      Refused(c.loginBindErr)
    else if loginType == LoginLdap then
      if ldap.ok then
        var log := RequestLog(c).(userId := ldap.user.id, platform := "LDAP Login", loginResult := "LDAP Login Success");
        Outcome(UserClaimsData(ClaimsOf(ldap.user)), Nil, [LdapVerify(c.loginForm)], [log])
      else
        Outcome(NilData, ErrFailedAuthentication, [LdapVerify(c.loginForm)], [])
    else
      if pwd.ok then
        var log := RequestLog(c).(userId := pwd.user.id, platform := "Standard Login", loginResult := "Standard Login Success");
        Outcome(UserClaimsData(ClaimsOf(pwd.user)), Nil, [PasswordVerify(c.loginForm)], [log])
      else
        Outcome(NilData, pwd.err, [PasswordVerify(c.loginForm)], [])
  }

  /**
   * What `AuthenticatorOAuth` does, given the answer the DingTalk code
   * exchange would give. Only DingTalk is implemented; the exchange counts as
   * failed when it reports an error or a user id below 1, and its error,
   * possibly nil, is passed on as it is.
   */
  function AuthenticatorOAuthResult(c: Request, dt: DingTalkReply): (r: Outcome)
    ensures c.oauthBindErr != Nil ==> r == Refused(c.oauthBindErr)
    ensures c.oauthBindErr == Nil && c.oauth.kind != OAuthDingTalk ==> r == Refused(Message(""))
    ensures r.calls == if c.oauthBindErr == Nil && c.oauth.kind == OAuthDingTalk then [DingTalkExchange(c.oauth.code)] else []
    ensures r.data.UserClaimsData? <==>
              c.oauthBindErr == Nil && c.oauth.kind == OAuthDingTalk && dt.err == Nil && dt.user.id >= 1
    ensures r.data.UserClaimsData? ==> r.data.claims == ClaimsOf(dt.user) && r.data.claims.id >= 1
    ensures c.oauthBindErr == Nil && c.oauth.kind == OAuthDingTalk && !r.data.UserClaimsData? ==>
              r.data == StringData("") && r.err == dt.err
    ensures AuditOnSuccessOnly(c, r)
    ensures Labelled(r, "DingTalk Login", "DingTalk login success")
  {
    if c.oauthBindErr != Nil then
      Refused(c.oauthBindErr)
    else if c.oauth.kind == OAuthDingTalk then
      if dt.err != Nil || dt.user.id < 1 then
        Outcome(StringData(""), dt.err, [DingTalkExchange(c.oauth.code)], [])
      else
        var log := RequestLog(c).(loginResult := "DingTalk login success", userId := dt.user.id, platform := "DingTalk Login");
        Outcome(UserClaimsData(ClaimsOf(dt.user)), Nil, [DingTalkExchange(c.oauth.code)], [log])
    else
      Refused(Message(""))
  }

  /**
   * The account service the middleware shares between all requests. Its
   * verifiers answer with the replies it was built with; it keeps the list
   * of verifier calls made and of login-log records submitted to it.
   */
  class AccountService {
    const ldapReply: LdapReply
    const passwordReply: PasswordReply
    const dingTalkReply: DingTalkReply
    /** What `InsertLoginLog` reports; the middleware discards it. */
    const insertErr: Error
    var calls: seq<Call>
    var loginLogs: seq<LoginLog>

    constructor (ldap: LdapReply, pwd: PasswordReply, dt: DingTalkReply, insertErr: Error)
      ensures ldapReply == ldap && passwordReply == pwd && dingTalkReply == dt && this.insertErr == insertErr
      ensures calls == [] && loginLogs == []
    {
      ldapReply, passwordReply, dingTalkReply, this.insertErr := ldap, pwd, dt, insertErr;
      calls, loginLogs := [], [];
    }

    method VerifyAndReturnLdapUserInfo(form: string) returns (ok: bool, u: User)
      modifies this`calls
      ensures ok == ldapReply.ok && u == ldapReply.user
      ensures calls == old(calls) + [LdapVerify(form)]
    {
      ok, u := ldapReply.ok, ldapReply.user;
      calls := calls + [LdapVerify(form)];
    }

    method VerifyAndReturnUserInfo(form: string) returns (ok: bool, err: Error, u: User)
      modifies this`calls
      ensures ok == passwordReply.ok && err == passwordReply.err && u == passwordReply.user
      ensures calls == old(calls) + [PasswordVerify(form)]
    {
      ok, err, u := passwordReply.ok, passwordReply.err, passwordReply.user;
      calls := calls + [PasswordVerify(form)];
    }

    method VerifyDTAndReturnUserInfo(code: string) returns (u: User, err: Error)
      modifies this`calls
      ensures u == dingTalkReply.user && err == dingTalkReply.err
      ensures calls == old(calls) + [DingTalkExchange(code)]
    {
      u, err := dingTalkReply.user, dingTalkReply.err;
      calls := calls + [DingTalkExchange(code)];
    }

    method InsertLoginLog(log: LoginLog) returns (err: Error)
      modifies this`loginLogs
      ensures err == insertErr
      ensures loginLogs == old(loginLogs) + [log]
    {
      err := insertErr;
      loginLogs := loginLogs + [log];
    }
  }

  /** `Authenticator`: directory login for `LoginLdap`, standard password login otherwise. */
  method Authenticator(c: Request, loginType: int, svc: AccountService) returns (data: Data, err: Error)
    modifies svc
    ensures var r := AuthenticatorResult(c, loginType, svc.ldapReply, svc.passwordReply);
            && data == r.data && err == r.err
            && svc.calls == old(svc.calls) + r.calls
            && svc.loginLogs == old(svc.loginLogs) + r.audit
  {
    if c.loginBindErr != Nil {
      return StringData(""), c.loginBindErr;
    }
    var loginLog := RequestLog(c);
    if loginType == LoginLdap {
      var ok, u := svc.VerifyAndReturnLdapUserInfo(c.loginForm);
      if ok {
        loginLog := loginLog.(userId := u.id);
        loginLog := loginLog.(platform := "LDAP Login");
        loginLog := loginLog.(loginResult := "LDAP Login Success");
        var _ := svc.InsertLoginLog(loginLog);
        return UserClaimsData(UserClaims(u.id, u.username)), Nil;
      }
      return NilData, ErrFailedAuthentication;
    }
    var ok, e, u := svc.VerifyAndReturnUserInfo(c.loginForm);
    if ok {
      loginLog := loginLog.(userId := u.id);
      loginLog := loginLog.(platform := "Standard Login");
      loginLog := loginLog.(loginResult := "Standard Login Success");
      var _ := svc.InsertLoginLog(loginLog);
      return UserClaimsData(UserClaims(u.id, u.username)), Nil;
    }
    return NilData, e;
  }

  /** `AuthenticatorOAuth`: DingTalk login by authorisation code. */
  method AuthenticatorOAuth(c: Request, svc: AccountService) returns (data: Data, err: Error)
    modifies svc
    ensures var r := AuthenticatorOAuthResult(c, svc.dingTalkReply);
            && data == r.data && err == r.err
            && svc.calls == old(svc.calls) + r.calls
            && svc.loginLogs == old(svc.loginLogs) + r.audit
  {
    if c.oauthBindErr != Nil {
      return StringData(""), c.oauthBindErr;
    }
    var loginLog := RequestLog(c);
    if c.oauth.kind == OAuthDingTalk {
      var user, e := svc.VerifyDTAndReturnUserInfo(c.oauth.code);
      if e != Nil || user.id < 1 {
        return StringData(""), e;
      }
      loginLog := loginLog.(loginResult := "DingTalk login success");
      loginLog := loginLog.(userId := user.id);
      loginLog := loginLog.(platform := "DingTalk Login");
      var _ := svc.InsertLoginLog(loginLog);
      return UserClaimsData(UserClaims(user.id, user.username)), Nil;
    }
    return StringData(""), Message("");
  }

  /** A request that fails to bind yields the same outcome whatever the verifiers would answer. */
  lemma BindFailureIgnoresVerifiers(c: Request, loginType: int, ldap1: LdapReply, pwd1: PasswordReply,
                                    ldap2: LdapReply, pwd2: PasswordReply, dt1: DingTalkReply, dt2: DingTalkReply)
    ensures c.loginBindErr != Nil ==>
              AuthenticatorResult(c, loginType, ldap1, pwd1) == AuthenticatorResult(c, loginType, ldap2, pwd2)
    ensures c.oauthBindErr != Nil ==> AuthenticatorOAuthResult(c, dt1) == AuthenticatorOAuthResult(c, dt2)
  {
  }

  /**
   * An OAuth provider other than DingTalk fails with an empty-message error
   * whatever the code, and without consulting the exchange.
   */
  lemma UnsupportedProviderFails(c: Request, dt1: DingTalkReply, dt2: DingTalkReply)
    requires c.oauthBindErr == Nil && c.oauth.kind != OAuthDingTalk
    ensures AuthenticatorOAuthResult(c, dt1) == AuthenticatorOAuthResult(c, dt2)
    ensures AuthenticatorOAuthResult(c, dt1).err == Message("")
    ensures AuthenticatorOAuthResult(c, dt1).calls == []
  {
  }

  /**
   * The exchange's defensive id check rejects a user with id 0 even when no
   * error is reported; the attempt then returns neither claims nor an error.
   */
  lemma ZeroIdExchangeReportsNoError(c: Request, name: string)
    requires c.oauthBindErr == Nil && c.oauth.kind == OAuthDingTalk
    ensures var r := AuthenticatorOAuthResult(c, DingTalkReply(User(0, name), Nil));
            r.data == StringData("") && r.err == Nil && r.audit == []
  {
  }

  /**
   * A standard-login verifier that refuses without giving a reason leaves
   * the attempt with neither claims nor an error.
   */
  lemma SilentPasswordRefusal(c: Request, loginType: int, ldap: LdapReply, u: User)
    requires c.loginBindErr == Nil && loginType != LoginLdap
    ensures var r := AuthenticatorResult(c, loginType, ldap, PasswordReply(false, Nil, u));
            r.data == NilData && r.err == Nil && r.audit == []
  {
  }
}
