/** `generateTokens(res, userId)`: mints an access token and a refresh token for
    an account and hands each to the client in its own HTTP-only cookie. */
module Tokens {
  import opened Wrappers
  import opened Jwt
  import opened Http

  /** `expiresIn: '15m'` and `expiresIn: '7d'`, in seconds. */
  const AccessLifetime: nat := 15 * 60
  const RefreshLifetime: nat := 7 * 24 * 60 * 60

  /** The cookies' `maxAge`, in milliseconds. */
  const AccessCookieMaxAge: nat := 15 * 60 * 1000
  const RefreshCookieMaxAge: nat := 7 * 24 * 60 * 60 * 1000

  /** `process.env.NODE_ENV === 'production'` and the signing secrets. */
  datatype Config = Config(production: bool, clientUrl: string, signer: Signer)

  function Lifetime(kind: SecretKind): nat {
    match kind
    case AccessSecret => AccessLifetime
    case RefreshSecret => RefreshLifetime
  }

  function CookieName(kind: SecretKind): string {
    match kind
    case AccessSecret => "accessToken"
    case RefreshSecret => "refreshToken"
  }

  function CookieMaxAge(kind: SecretKind): nat {
    match kind
    case AccessSecret => AccessCookieMaxAge
    case RefreshSecret => RefreshCookieMaxAge
  }

  /** `jwt.sign({ userId }, secret, { expiresIn })` at clock `now` (milliseconds):
      `exp` is the current whole second plus the lifetime. */
  function Mint(userId: Option<AccountId>, kind: SecretKind, now: nat): Token {
    Token(userId, None, None, kind, now / 1000 + Lifetime(kind))
  }

  /** The cookie that carries the token of the given kind. */
  function TokenCookie(config: Config, userId: Option<AccountId>, kind: SecretKind, now: nat): Cookie {
    Cookie(CookieName(kind), config.signer.sign(Mint(userId, kind, now)), true, Strict,
           config.production, CookieMaxAge(kind))
  }

  /** The two cookies `generateTokens` sets, in order. */
  function IssuedCookies(config: Config, userId: AccountId, now: nat): (cs: seq<Cookie>)
    ensures |cs| == 2
    ensures cs[0].name == "accessToken" && cs[1].name == "refreshToken"
    ensures forall i :: 0 <= i < 2 ==>
      cs[i].httpOnly && cs[i].sameSite == Strict && (cs[i].secure <==> config.production)
  {
    [TokenCookie(config, Some(userId), AccessSecret, now),
     TokenCookie(config, Some(userId), RefreshSecret, now)]
  }

  /** Sets the access and the refresh cookie on `res`, and nothing else. */
  method GenerateTokens(res: Response, config: Config, userId: AccountId, now: nat)
    modifies res
    ensures res.cookieOps == old(res.cookieOps)
      + [SetCookie(IssuedCookies(config, userId, now)[0]), SetCookie(IssuedCookies(config, userId, now)[1])]
  {
    var accessToken := config.signer.sign(Token(Some(userId), None, None, AccessSecret, now / 1000 + 15 * 60));
    var refreshToken := config.signer.sign(Token(Some(userId), None, None, RefreshSecret, now / 1000 + 7 * 24 * 60 * 60));
    res.SetCookie(Cookie("accessToken", accessToken, true, Strict, config.production, 15 * 60 * 1000));
    res.SetCookie(Cookie("refreshToken", refreshToken, true, Strict, config.production, 7 * 24 * 60 * 60 * 1000));
  }

  /** Each cookie's `maxAge` is exactly the lifetime of the token it carries:
      access 15 minutes, refresh 7 days. */
  lemma CookieMaxAgeIsTokenLifetime(config: Config, userId: Option<AccountId>, kind: SecretKind, now: nat)
    ensures TokenCookie(config, userId, kind, now).maxAge
            == 1000 * (Mint(userId, kind, now).exp - now / 1000)
    ensures kind == AccessSecret ==> TokenCookie(config, userId, kind, now).maxAge == 15 * 60 * 1000
    ensures kind == RefreshSecret ==> TokenCookie(config, userId, kind, now).maxAge == 7 * 24 * 60 * 60 * 1000
  {
  }

  /** The token in a cookie minted at `now` verifies under its own secret, for
      the same account, at any time `t` that leaves a full second of the
      cookie's life, and no longer verifies once the cookie has expired: the
      token never outlives its cookie and dies at most one second before it. */
  lemma CookieTokenValidity(config: Config, userId: Option<AccountId>, kind: SecretKind, now: nat, t: nat)
    requires Sound(config.signer)
    ensures var c := TokenCookie(config, userId, kind, now);
      && (t + 1000 <= now + c.maxAge ==>
            Verify(config.signer, c.value, kind, t) == Decoded(Mint(userId, kind, now)))
      && (t >= now + c.maxAge ==> Verify(config.signer, c.value, kind, t) == Invalid)
  {
    var c := TokenCookie(config, userId, kind, now);
    VerifySigned(config.signer, Mint(userId, kind, now), kind, t);
    assert c.maxAge == 1000 * Lifetime(kind);
    if t + 1000 <= now + c.maxAge {
      assert t / 1000 < now / 1000 + Lifetime(kind);
    }
    if t >= now + c.maxAge {
      assert t / 1000 >= now / 1000 + Lifetime(kind);
    }
  }

  /** A token carried in one cookie is never accepted under the other secret:
      a refresh token cannot stand in for an access token, nor the reverse. */
  lemma SecretsAreNotInterchangeable(config: Config, userId: Option<AccountId>, kind: SecretKind, other: SecretKind, now: nat, t: nat)
    requires Sound(config.signer) && other != kind
    ensures Verify(config.signer, TokenCookie(config, userId, kind, now).value, other, t) == Invalid
  {
    VerifySigned(config.signer, Mint(userId, kind, now), other, t);
  }
}
