/** `verifyToken(req, res, next)`: the middleware that admits a request carrying
    a valid access token. It picks the token from the `accessToken` cookie, the
    `Authorization: Bearer` header or the `x-auth-token` header, in that order,
    verifies it with the access secret, and either stores the caller in
    `req.user` and calls `next()`, or answers 401 or 500 itself. */
module Guard {
  import opened Wrappers
  import opened Text
  import opened Jwt
  import opened Http

  /** `authHeader.startsWith("Bearer ")` */
  predicate HasBearerPrefix(h: string) {
    |h| >= 7 && h[..7] == "Bearer "
  }

  /** The credential of an `Authorization` header in the bearer scheme: the
      header with its 7-character prefix removed; other headers give none. */
  function BearerCredential(authorization: Option<string>): Option<string> {
    if authorization.Some? && HasBearerPrefix(authorization.value)
    then Some(authorization.value[7..])
    else None
  }

  /** The token the guard goes on to verify, following the source's three
      reassignments of `token`; `None` when every source is falsy. */
  function SelectToken(cookie: Option<string>, authorization: Option<string>, xAuthToken: Option<string>): (token: Option<string>)
    ensures token.Some? ==> token.value != ""
  {
    var token := cookie;
    var token := if !Truthy(token) && authorization.Some? && HasBearerPrefix(authorization.value)
                 then Some(authorization.value[7..]) else token;
    var token := if !Truthy(token) then xAuthToken else token;
    if Truthy(token) then token else None
  }

  /** The first truthy candidate: the reference definition of precedence. */
  function FirstTruthy(candidates: seq<Option<string>>): (r: Option<string>)
    ensures r.Some? ==> Truthy(r) && exists i :: 0 <= i < |candidates| && candidates[i] == r
    ensures r.None? ==> forall i :: 0 <= i < |candidates| ==> !Truthy(candidates[i])
  {
    if candidates == [] then None
    else if Truthy(candidates[0]) then candidates[0]
    else FirstTruthy(candidates[1..])
  }

  /** Token selection is "first truthy of cookie, bearer credential, x-auth-token". */
  lemma SelectTokenIsFirstTruthy(cookie: Option<string>, authorization: Option<string>, xAuthToken: Option<string>)
    ensures SelectToken(cookie, authorization, xAuthToken)
            == FirstTruthy([cookie, BearerCredential(authorization), xAuthToken])
  {
    var cs := [cookie, BearerCredential(authorization), xAuthToken];
    assert cs[1..] == [BearerCredential(authorization), xAuthToken];
    assert cs[1..][1..] == [xAuthToken];
    assert [xAuthToken][1..] == [];
    assert FirstTruthy([xAuthToken]) == if Truthy(xAuthToken) then xAuthToken else None;
    assert FirstTruthy(cs[1..]) == if Truthy(BearerCredential(authorization)) then BearerCredential(authorization)
                                   else FirstTruthy([xAuthToken]);
  }

  /** A non-empty cookie wins over both headers. */
  lemma CookieTakesPrecedence(cookie: Option<string>, authorization: Option<string>, xAuthToken: Option<string>)
    requires Truthy(cookie)
    ensures SelectToken(cookie, authorization, xAuthToken) == cookie
  {
  }

  /** Without a usable cookie, `Authorization: Bearer <t>` yields exactly `<t>`
      when `<t>` is non-empty, whatever `x-auth-token` holds. */
  lemma BearerPrefixIsStripped(cookie: Option<string>, t: string, xAuthToken: Option<string>)
    requires !Truthy(cookie) && t != ""
    ensures SelectToken(cookie, Some("Bearer " + t), xAuthToken) == Some(t)
  {
    var h := "Bearer " + t;
    assert h[..7] == "Bearer ";
    assert h[7..] == t;
  }

  /** An `Authorization` header not in the bearer form is ignored altogether. */
  lemma NonBearerHeaderIgnored(cookie: Option<string>, h: string, xAuthToken: Option<string>)
    requires !HasBearerPrefix(h)
    ensures SelectToken(cookie, Some(h), xAuthToken) == SelectToken(cookie, None, xAuthToken)
  {
  }

  /** Empty values count as absent: an empty cookie and a bare `"Bearer "`
      fall through to `x-auth-token`. */
  lemma EmptyValuesFallThrough(xAuthToken: Option<string>)
    ensures SelectToken(Some(""), Some("Bearer "), xAuthToken)
            == if Truthy(xAuthToken) then xAuthToken else None
  {
    assert "Bearer "[..7] == "Bearer ";
    assert "Bearer "[7..] == "";
  }

  /** `req.user`: the account id and the optional claims the guard copies. */
  datatype AuthUser = AuthUser(id: Option<AccountId>, email: Option<string>, role: Option<string>)

  /** `{ id: decoded.userId, ...(decoded.email && {email}), ...(decoded.role && {role}) }` */
  function Principal(t: Token): AuthUser {
    AuthUser(t.userId,
             if t.email.Some? && t.email.value != "" then t.email else None,
             if t.role.Some? && t.role.value != "" then t.role else None)
  }

  /** The parts of an Express request the guard and the handlers behind it use. */
  class Request {
    const accessTokenCookie: Option<string>
    const authorization: Option<string>
    const xAuthToken: Option<string>
    /** `req.user`, written by the guard. */
    var user: Option<AuthUser>
    /** `req.userId`, which `checkAuth` reads; no code of the backend writes it. */
    var userId: Option<AccountId>
    /** How many times `next()` has been called. */
    var nextCalls: nat

    constructor(accessTokenCookie: Option<string>, authorization: Option<string>, xAuthToken: Option<string>)
      ensures this.accessTokenCookie == accessTokenCookie
      ensures this.authorization == authorization
      ensures this.xAuthToken == xAuthToken
      ensures user.None? && userId.None? && nextCalls == 0
    {
      this.accessTokenCookie := accessTokenCookie;
      this.authorization := authorization;
      this.xAuthToken := xAuthToken;
      user := None;
      userId := None;
      nextCalls := 0;
    }
  }

  /** The guard. `halt` is the reply it sends itself; `None` means it passed
      the request on with `next()`. */
  method VerifyToken(req: Request, signer: Signer, now: nat) returns (halt: Option<Reply>)
    modifies req
    ensures req.userId == old(req.userId)
    ensures var token := SelectToken(req.accessTokenCookie, req.authorization, req.xAuthToken);
      if token.None? then
        halt == Some(Failure(401, "Unauthorized - no token provided"))
        && req.user == old(req.user) && req.nextCalls == old(req.nextCalls)
      else match Verify(signer, token.value, AccessSecret, now)
        case Invalid =>
          halt == Some(Failure(500, "Server error"))
          && req.user == old(req.user) && req.nextCalls == old(req.nextCalls)
        case Falsy =>
          halt == Some(Failure(401, "Unauthorized - invalid token"))
          && req.user == old(req.user) && req.nextCalls == old(req.nextCalls)
        case Decoded(t) =>
          halt.None? && req.user == Some(Principal(t)) && req.nextCalls == old(req.nextCalls) + 1
  {
    var token := req.accessTokenCookie;
    if !Truthy(token) {
      var authHeader := req.authorization;
      if authHeader.Some? && HasBearerPrefix(authHeader.value) {
        token := Some(authHeader.value[7..]);
      }
    }
    if !Truthy(token) {
      token := req.xAuthToken;
    }
    if !Truthy(token) {
      return Some(Failure(401, "Unauthorized - no token provided"));
    }
    var decoded := Verify(signer, token.value, AccessSecret, now);
    if decoded.Invalid? {
      // jwt.verify threw: bad signature, wrong secret or expired
      return Some(Failure(500, "Server error"));
    }
    if decoded.Falsy? {
      return Some(Failure(401, "Unauthorized - invalid token"));
    }
    req.user := Some(Principal(decoded.token));
    req.nextCalls := req.nextCalls + 1;
    halt := None;
  }
}
