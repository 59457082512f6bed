/** The authentication controller: signup, email verification, login, logout,
    forgotten and reset passwords, `checkAuth` and access-token refresh, over a
    collection of user accounts. Each handler runs as one atomic step; the clock
    (`Date.now()`, milliseconds), the random draws, the outcome of each email
    send, bcrypt and the JWT signer are supplied from outside. */
module Auth {
  import opened Wrappers
  import opened Text
  import opened Jwt
  import opened Http
  import Tokens
  import Guard

  /** `24 * 60 * 60 * 1000` and `1 * 60 * 60 * 1000` milliseconds. */
  const VerificationCodeLifetime: nat := 24 * 60 * 60 * 1000
  const ResetTokenLifetime: nat := 1 * 60 * 60 * 1000

  /** A stored user document. `password` is a bcrypt digest; times are milliseconds. */
  datatype Account = Account(
    email: string,
    name: string,
    password: string,
    isVerified: bool,
    verificationToken: Option<string>,
    verificationExpiresAt: Option<int>,
    resetPasswordToken: Option<string>,
    resetPasswordExpiresAt: Option<int>,
    lastLogin: Option<int>)

  /** A request-body value that `verifyEmail` passes through `String(...)`. */
  datatype BodyValue = Undefined | Str(s: string) | Num(n: nat)

  /** `String(v)`: a string is kept as it is, a number becomes the numeral
      that reads back as it, and an absent code becomes "undefined". */
  function Stringify(v: BodyValue): (s: string)
    ensures v.Str? ==> s == v.s
    ensures v.Num? ==> |s| >= 1 && AllDigits(s) && ParseDecimal(s) == v.n
    ensures v.Undefined? ==> s == "undefined"
  {
    match v
    case Undefined => "undefined"
    case Str(s) => s
    case Num(n) => DecimalRoundTrip(n); Decimal(n)
  }

  /** Whether an awaited email send resolved or rejected with an error message. */
  datatype MailOutcome = Delivered | Failed(message: string)

  /** The emails the controller asks the mailer to send, in order. */
  datatype Mail =
    | VerificationMail(to: string, code: string)
    | WelcomeMail(to: string, name: string)
    | ResetLinkMail(to: string, link: string)
    | ResetSuccessMail(to: string)

  // ---------------------------------------------------------------------
  // Codes, tokens and lookups

  /** `Math.floor(100000 + Math.random() * 900000).toString()`, where `draw` is
      the floored `Math.random() * 900000`. */
  function VerificationCode(draw: nat): (code: string)
    requires draw < 900000
    ensures |code| == 6 && AllDigits(code) && Trimmed(code)
    ensures ParseDecimal(code) == 100000 + draw
  {
    assert Pow10(5) == 100000 && Pow10(6) == 1000000;
    DecimalLength(100000 + draw, 6);
    DecimalRoundTrip(100000 + draw);
    Decimal(100000 + draw)
  }

  /** `crypto.randomBytes(20).toString("hex")` */
  function ResetToken(randomBytes: seq<byte>): (token: string)
    requires |randomBytes| == 20
    ensures |token| == 40 && forall i :: 0 <= i < 40 ==> IsLowerHex(token[i])
  {
    Hex(randomBytes)
  }

  /** `${process.env.CLIENT_URL}/reset-password/${resetToken}` */
  function ResetLink(clientUrl: string, token: string): string {
    clientUrl + "/reset-password/" + token
  }

  /** The accounts `findOne({ email })` can return. */
  function EmailOwners(users: map<AccountId, Account>, email: string): set<AccountId> {
    set id | id in users && users[id].email == email
  }

  /** The accounts `findOne({ verificationToken: code, verificationExpiresAt: { $gt: now } })`
      can return. The expiry comparison is strict: a code whose expiry is
      `now` or earlier no longer matches. */
  function CodeMatches(users: map<AccountId, Account>, code: string, now: int): (r: set<AccountId>)
    ensures forall id | id in r :: id in users && users[id].verificationToken == Some(code)
    ensures forall id | id in users && users[id].verificationExpiresAt.Some?
                        && users[id].verificationExpiresAt.value <= now :: id !in r
  {
    set id | id in users && users[id].verificationToken == Some(code)
                         && users[id].verificationExpiresAt.Some?
                         && users[id].verificationExpiresAt.value > now
  }

  /** The accounts `findOne({ resetPasswordToken: token, resetPasswordExpiresAt: { $gt: now } })`
      can return, with the same strict expiry comparison. */
  function ResetMatches(users: map<AccountId, Account>, token: string, now: int): (r: set<AccountId>)
    ensures forall id | id in r :: id in users && users[id].resetPasswordToken == Some(token)
    ensures forall id | id in users && users[id].resetPasswordExpiresAt.Some?
                        && users[id].resetPasswordExpiresAt.value <= now :: id !in r
  {
    set id | id in users && users[id].resetPasswordToken == Some(token)
                         && users[id].resetPasswordExpiresAt.Some?
                         && users[id].resetPasswordExpiresAt.value > now
  }

  /** As the clock advances, a code or a reset token can only stop matching. */
  lemma MatchesShrinkOverTime(users: map<AccountId, Account>, secret: string, now: int, later: int)
    requires now <= later
    ensures CodeMatches(users, secret, later) <= CodeMatches(users, secret, now)
    ensures ResetMatches(users, secret, later) <= ResetMatches(users, secret, now)
  {
  }

  ghost predicate UniqueEmails(users: map<AccountId, Account>) {
    forall i, j :: i in users && j in users && users[i].email == users[j].email ==> i == j
  }

  /** The field pairing every stored account keeps: a reset token always has
      its expiry, a verification code always has its expiry (the expiry can
      outlive the code, see `Verified`), and a verified account has no code. */
  predicate WellFormed(a: Account) {
    && (a.resetPasswordToken.Some? <==> a.resetPasswordExpiresAt.Some?)
    && (a.verificationToken.Some? ==> a.verificationExpiresAt.Some?)
    && (a.isVerified ==> a.verificationToken.None?)
  }

  // ---------------------------------------------------------------------
  // Record updates made by the handlers

  /** `new User({ email, password, name, verificationToken, verificationExpiresAt })`;
      `isVerified` starts false. */
  function NewAccount(email: string, digest: string, name: string, code: string, now: int): Account {
    Account(email, name, digest, false, Some(code), Some(now + VerificationCodeLifetime), None, None, None)
  }

  /** What `verifyEmail` saves. It assigns `verificationTokenExpiresAt`, a field
      the record does not have, so `verificationExpiresAt` stays as it was. */
  function Verified(a: Account): Account {
    a.(isVerified := true, verificationToken := None)
  }

  function WithResetToken(a: Account, token: string, now: int): Account {
    a.(resetPasswordToken := Some(token), resetPasswordExpiresAt := Some(now + ResetTokenLifetime))
  }

  function WithNewPassword(a: Account, digest: string): Account {
    a.(password := digest, resetPasswordToken := None, resetPasswordExpiresAt := None)
  }

  /** `{ ...user._doc, password: undefined }`, and `select("-password")`. */
  function PublicView(id: AccountId, a: Account): UserView {
    UserView(id, a.email, a.name, a.isVerified, a.verificationToken, a.verificationExpiresAt,
             a.resetPasswordToken, a.resetPasswordExpiresAt, a.lastLogin)
  }

  /** The public view hides the password and nothing else: two accounts give
      the same view exactly when they differ at most in their password. */
  lemma PublicViewHidesOnlyPassword(id: AccountId, a: Account, b: Account)
    ensures PublicView(id, a) == PublicView(id, b) <==> a.(password := b.password) == b
  {
  }

  /** Signup's view, which also leaves out the code and its expiry. */
  function SignupView(id: AccountId, a: Account): (v: UserView)
    ensures v.verificationToken.None? && v.verificationExpiresAt.None?
    ensures v.id == id && v.email == a.email && v.name == a.name && v.isVerified == a.isVerified
  {
    PublicView(id, a).(verificationToken := None, verificationExpiresAt := None)
  }

  /** `error.message || 'Something went wrong'` */
  function SignupErrorMessage(message: string): (m: string)
    ensures m != ""
  {
    if message != "" then message else "Something went wrong"
  }

  const InvalidCredentials: Reply := Failure(400, "Invalid credentials")

  // ---------------------------------------------------------------------
  // Properties of the record updates

  /** Adding an account whose email is not yet taken keeps emails unique. */
  lemma SignupKeepsEmailsUnique(users: map<AccountId, Account>, id: AccountId, a: Account)
    requires UniqueEmails(users) && id !in users && EmailOwners(users, a.email) == {}
    ensures UniqueEmails(users[id := a])
  {
    forall k | k in users ensures users[k].email != a.email {
      assert k !in EmailOwners(users, a.email);
    }
  }

  /** Every stored account is well formed. */
  ghost predicate AllWellFormed(users: map<AccountId, Account>) {
    forall id :: id in users ==> WellFormed(users[id])
  }

  /** Rewriting an account into a well-formed one with the same email keeps
      emails unique and every account well formed. */
  lemma RewriteKeepsInvariant(users: map<AccountId, Account>, id: AccountId, a: Account)
    requires UniqueEmails(users) && AllWellFormed(users)
    requires id in users && a.email == users[id].email && WellFormed(a)
    ensures UniqueEmails(users[id := a]) && AllWellFormed(users[id := a])
  {
  }

  /** With unique emails, `findOne({ email })` has at most one account to return. */
  lemma EmailOwnersAtMostOne(users: map<AccountId, Account>, email: string)
    requires UniqueEmails(users)
    ensures |EmailOwners(users, email)| <= 1
  {
    var owners := EmailOwners(users, email);
    if owners != {} {
      var i :| i in owners;
      assert owners == {i};
    }
  }

  /** Verifying an account consumes its code: the accounts the same code still
      selects are exactly the others it selected before. So when the code was
      held by one account, a repeated `verifyEmail` with it fails. */
  lemma {:induction false} VerifyConsumesCode(users: map<AccountId, Account>, id: AccountId, code: string, now: int)
    requires id in users
    ensures CodeMatches(users[id := Verified(users[id])], code, now) == CodeMatches(users, code, now) - {id}
  {
    var after := users[id := Verified(users[id])];
    forall j ensures j in CodeMatches(after, code, now) <==> j in CodeMatches(users, code, now) - {id} {
      if j == id {
        assert after[j].verificationToken.None?;
      } else if j in users {
        assert after[j] == users[j];
      }
    }
  }

  /** Resetting a password consumes the reset token in the same way. */
  lemma {:induction false} ResetConsumesToken(users: map<AccountId, Account>, id: AccountId, digest: string, token: string, now: int)
    requires id in users
    ensures ResetMatches(users[id := WithNewPassword(users[id], digest)], token, now) == ResetMatches(users, token, now) - {id}
  {
    var after := users[id := WithNewPassword(users[id], digest)];
    forall j ensures j in ResetMatches(after, token, now) <==> j in ResetMatches(users, token, now) - {id} {
      if j == id {
        assert after[j].resetPasswordToken.None?;
      } else if j in users {
        assert after[j] == users[j];
      }
    }
  }

  /** A new forgot-password request replaces the account's previous reset token,
      so the earlier link stops working for that account. */
  lemma {:induction false} NewResetTokenRevokesOld(users: map<AccountId, Account>, id: AccountId, newer: string, stale: string, issued: int, now: int)
    requires id in users && newer != stale
    ensures ResetMatches(users[id := WithResetToken(users[id], newer, issued)], stale, now) == ResetMatches(users, stale, now) - {id}
  {
    var after := users[id := WithResetToken(users[id], newer, issued)];
    forall j ensures j in ResetMatches(after, stale, now) <==> j in ResetMatches(users, stale, now) - {id} {
      if j == id {
        assert after[j].resetPasswordToken == Some(newer);
      } else if j in users {
        assert after[j] == users[j];
      }
    }
  }

  /** A freshly created account's code matches for exactly 24 hours: at any
      time strictly before `now + 24h`, and at no time from then on. */
  lemma NewCodeLifetime(users: map<AccountId, Account>, id: AccountId, email: string, digest: string, name: string, draw: nat, now: int, t: int)
    requires draw < 900000
    ensures var users' := users[id := NewAccount(email, digest, name, VerificationCode(draw), now)];
      id in CodeMatches(users', VerificationCode(draw), t) <==> t < now + 86400000
  {
  }

  /** A reset token is usable for exactly one hour after it is stored. */
  lemma NewResetTokenLifetime(users: map<AccountId, Account>, id: AccountId, token: string, issued: int, t: int)
    requires id in users
    ensures id in ResetMatches(users[id := WithResetToken(users[id], token, issued)], token, t) <==> t < issued + 3600000
  {
  }

  /** The code a user receives still verifies when typed with surrounding
      whitespace, or sent as a JSON number, because `verifyEmail` compares
      `String(code).trim()`. */
  lemma TypedCodeMatches(draw: nat, pre: string, post: string)
    requires draw < 900000 && AllWhitespace(pre) && AllWhitespace(post)
    ensures Trim(Stringify(Str(pre + VerificationCode(draw) + post))) == VerificationCode(draw)
    ensures Trim(Stringify(Num(100000 + draw))) == VerificationCode(draw)
  {
    TrimPadded(pre, VerificationCode(draw), post);
    TrimPadded([], VerificationCode(draw), []);
    assert [] + VerificationCode(draw) + [] == VerificationCode(draw);
  }

  /** Different random draws give different verification codes. */
  lemma DrawsGiveDistinctCodes(d1: nat, d2: nat)
    requires d1 < 900000 && d2 < 900000
    ensures VerificationCode(d1) == VerificationCode(d2) ==> d1 == d2
  {
  }

  /** Different random bytes give different reset tokens. */
  lemma BytesGiveDistinctResetTokens(b1: seq<byte>, b2: seq<byte>)
    requires |b1| == 20 && |b2| == 20
    ensures ResetToken(b1) == ResetToken(b2) ==> b1 == b2
  {
    HexInjective(b1, b2);
  }

  /** Verification keeps `verificationExpiresAt`: the verified record has no
      code but still has the expiry, so "code and expiry are both present or
      both absent" does not hold of the records `verifyEmail` saves. */
  lemma VerifiedKeepsStaleExpiry(a: Account)
    requires a.verificationToken.Some? && WellFormed(a)
    ensures Verified(a).verificationToken.None?
    ensures Verified(a).verificationExpiresAt == a.verificationExpiresAt
    ensures Verified(a).verificationExpiresAt.Some?
    ensures WellFormed(Verified(a))
  {
  }

  // ---------------------------------------------------------------------
  // The controller

  class AuthController {
    /** The user collection, by `_id`. */
    var users: map<AccountId, Account>
    /** Every email the controller has handed to the mailer, delivered or not. */
    var outbox: seq<Mail>
    /** bcrypt's hash; `bcrypt.compare(p, h)` holds exactly when `h == hash(p)`. */
    const hash: string -> string
    const config: Tokens.Config

    ghost predicate Valid()
      reads this
    {
      UniqueEmails(users) && AllWellFormed(users)
    }

    constructor(hash: string -> string, config: Tokens.Config)
      ensures this.hash == hash && this.config == config
      ensures Valid() && users == map[] && outbox == []
    {
      this.hash := hash;
      this.config := config;
      users := map[];
      outbox := [];
    }

    /** `bcrypt.compare(plain, digest)` */
    predicate PasswordMatches(plain: string, digest: string) {
      digest == hash(plain)
    }

    /** `signup`. `id` is the fresh `_id` of the new document, `draw` the
        floored `Math.random() * 900000`, `verificationMail` the outcome of
        `sendVerificationEmail`. */
    method Signup(email: Option<string>, password: Option<string>, name: Option<string>,
                  id: AccountId, draw: nat, verificationMail: MailOutcome, now: nat)
      returns (reply: Reply)
      requires Valid() && id !in users && draw < 900000
      modifies this
      ensures Valid()
      ensures !(Truthy(email) && Truthy(password) && Truthy(name)) ==>
        reply == Failure(400, "All fields are required") && users == old(users) && outbox == old(outbox)
      ensures Truthy(email) && Truthy(password) && Truthy(name) && EmailOwners(old(users), email.value) != {} ==>
        reply == Failure(400, "User already exists") && users == old(users) && outbox == old(outbox)
      ensures Truthy(email) && Truthy(password) && Truthy(name) && EmailOwners(old(users), email.value) == {} ==>
        && users == old(users)[id := NewAccount(email.value, hash(password.value), name.value, VerificationCode(draw), now)]
        && outbox == old(outbox) + [VerificationMail(email.value, VerificationCode(draw))]
        && reply == if verificationMail.Delivered?
                    then Reply(201, true, Some("User created successfully"), Some(SignupView(id, users[id])))
                    else Failure(500, SignupErrorMessage(verificationMail.message))
    {
      if !Truthy(email) || !Truthy(password) || !Truthy(name) {
        return Failure(400, "All fields are required");
      }
      var userAlreadyExists := EmailOwners(users, email.value);
      if userAlreadyExists != {} {
        return Failure(400, "User already exists");
      }
      var hashedPassword := hash(password.value);
      var verificationToken := VerificationCode(draw);
      var user := Account(email.value, name.value, hashedPassword, false,
                          Some(verificationToken), Some(now + 24 * 60 * 60 * 1000), None, None, None);
      SignupKeepsEmailsUnique(users, id, user);
      users := users[id := user];
      outbox := outbox + [VerificationMail(user.email, verificationToken)];
      if verificationMail.Failed? {
        return Failure(500, SignupErrorMessage(verificationMail.message));
      }
      reply := Reply(201, true, Some("User created successfully"), Some(SignupView(id, user)));
    }

    /** `verifyEmail`. Any account the trimmed code selects may be the one
        `findOne` returns; the welcome email's outcome does not matter. */
    method VerifyEmail(code: BodyValue, welcomeMail: MailOutcome, now: nat) returns (reply: Reply)
      requires Valid()
      modifies this
      ensures Valid()
      ensures CodeMatches(old(users), Trim(Stringify(code)), now) == {} ==>
        reply == Failure(400, "Invalid or expired verification code")
        && users == old(users) && outbox == old(outbox)
      ensures CodeMatches(old(users), Trim(Stringify(code)), now) != {} ==>
        reply.status == 200 && reply.success && reply.message == Some("Email verified successfully")
        && reply.user.Some? && reply.user.value.id in CodeMatches(old(users), Trim(Stringify(code)), now)
      ensures reply.status == 200 ==>
        reply.user.Some? && reply.user.value.id in old(users) &&
        var id := reply.user.value.id;
        && users == old(users)[id := Verified(old(users)[id])]
        && reply.user.value == PublicView(id, users[id])
        && outbox == old(outbox) + [WelcomeMail(users[id].email, users[id].name)]
    {
      var c := Trim(Stringify(code));
      var matches := CodeMatches(users, c, now);
      if matches == {} {
        return Failure(400, "Invalid or expired verification code");
      }
      var id :| id in matches;
      var user := users[id];
      user := user.(isVerified := true);
      user := user.(verificationToken := None);
      assert user == Verified(old(users)[id]);
      RewriteKeepsInvariant(users, id, user);
      users := users[id := user];
      outbox := outbox + [WelcomeMail(user.email, user.name)];
      // a failed welcome email is logged and swallowed
      reply := Reply(200, true, Some("Email verified successfully"), Some(PublicView(id, user)));
    }

    /** `login`. An unknown email and a wrong password give the same reply. */
    method Login(email: string, password: string, res: Response, now: nat) returns (reply: Reply)
      requires Valid()
      modifies this, res
      ensures Valid() && outbox == old(outbox)
      ensures (forall id | id in EmailOwners(old(users), email) :: old(users)[id].password != hash(password)) ==>
        reply == InvalidCredentials && users == old(users) && res.cookieOps == old(res.cookieOps)
      ensures forall id | id in EmailOwners(old(users), email) && old(users)[id].password == hash(password) ::
        && users == old(users)[id := old(users)[id].(lastLogin := Some(now))]
        && res.cookieOps == old(res.cookieOps)
             + [SetCookie(Tokens.IssuedCookies(config, id, now)[0]), SetCookie(Tokens.IssuedCookies(config, id, now)[1])]
        && reply == Reply(200, true, Some("Logged in successfully"), Some(PublicView(id, users[id])))
    {
      var owners := EmailOwners(users, email);
      if owners == {} {
        return InvalidCredentials;
      }
      var id :| id in owners;
      var user := users[id];
      var isPasswordValid := PasswordMatches(password, user.password);
      if !isPasswordValid {
        return InvalidCredentials;
      }
      Tokens.GenerateTokens(res, config, id, now);
      user := user.(lastLogin := Some(now));
      RewriteKeepsInvariant(users, id, user);
      users := users[id := user];
      reply := Reply(200, true, Some("Logged in successfully"), Some(PublicView(id, user)));
    }

    /** `logout`: clears both cookies; no server state is involved. */
    method Logout(res: Response) returns (reply: Reply)
      modifies res
      ensures res.cookieOps == old(res.cookieOps) + [ClearCookie("accessToken"), ClearCookie("refreshToken")]
      ensures reply == Reply(200, true, Some("Logged out successfully"), None)
    {
      res.ClearCookie("accessToken");
      res.ClearCookie("refreshToken");
      reply := Reply(200, true, Some("Logged out successfully"), None);
    }

    /** `forgotPassword`. `randomBytes` are the 20 bytes of `crypto.randomBytes(20)`.
        The token is saved before the email is sent, and stays saved when the
        send fails. */
    method ForgotPassword(email: string, randomBytes: seq<byte>, resetMail: MailOutcome, now: nat) returns (reply: Reply)
      requires Valid() && |randomBytes| == 20
      modifies this
      ensures Valid()
      ensures EmailOwners(old(users), email) == {} ==>
        reply == Failure(400, "User not found") && users == old(users) && outbox == old(outbox)
      ensures forall id | id in EmailOwners(old(users), email) ::
        && users == old(users)[id := WithResetToken(old(users)[id], ResetToken(randomBytes), now)]
        && outbox == old(outbox) + [ResetLinkMail(email, ResetLink(config.clientUrl, ResetToken(randomBytes)))]
        && reply == if resetMail.Delivered?
                    then Reply(200, true, Some("Password reset link sent to your email"), None)
                    else Failure(400, resetMail.message)
    {
      var owners := EmailOwners(users, email);
      if owners == {} {
        return Failure(400, "User not found");
      }
      var id :| id in owners;
      var user := users[id];
      var resetToken := ResetToken(randomBytes);
      var resetTokenExpiresAt := now + 1 * 60 * 60 * 1000;
      user := user.(resetPasswordToken := Some(resetToken));
      user := user.(resetPasswordExpiresAt := Some(resetTokenExpiresAt));
      RewriteKeepsInvariant(users, id, user);
      users := users[id := user];
      outbox := outbox + [ResetLinkMail(user.email, ResetLink(config.clientUrl, resetToken))];
      if resetMail.Failed? {
        return Failure(400, resetMail.message);
      }
      reply := Reply(200, true, Some("Password reset link sent to your email"), None);
    }

    /** `resetPassword`. The new password and the cleared token are saved
        before the confirmation email; a failed send still answers 400. */
    method ResetPassword(token: string, password: string, successMail: MailOutcome, now: nat) returns (reply: Reply)
      requires Valid()
      modifies this
      ensures Valid()
      ensures ResetMatches(old(users), token, now) == {} ==>
        reply == Failure(400, "Invalid or expired reset token") && users == old(users) && outbox == old(outbox)
      ensures ResetMatches(old(users), token, now) != {} ==>
        exists id :: id in ResetMatches(old(users), token, now)
          && users == old(users)[id := WithNewPassword(old(users)[id], hash(password))]
          && outbox == old(outbox) + [ResetSuccessMail(old(users)[id].email)]
          && reply == if successMail.Delivered?
                      then Reply(200, true, Some("Password reset successful"), None)
                      else Failure(400, successMail.message)
    {
      var matches := ResetMatches(users, token, now);
      if matches == {} {
        return Failure(400, "Invalid or expired reset token");
      }
      var id :| id in matches;
      var user := users[id];
      var hashedPassword := hash(password);
      user := user.(password := hashedPassword);
      user := user.(resetPasswordToken := None);
      user := user.(resetPasswordExpiresAt := None);
      RewriteKeepsInvariant(users, id, user);
      users := users[id := user];
      outbox := outbox + [ResetSuccessMail(user.email)];
      if successMail.Failed? {
        return Failure(400, successMail.message);
      }
      reply := Reply(200, true, Some("Password reset successful"), None);
    }

    /** `checkAuth`, given `req.userId`. */
    method CheckAuth(userId: Option<AccountId>) returns (reply: Reply)
      ensures userId.Some? && userId.value in users ==>
        reply == Reply(200, true, None, Some(PublicView(userId.value, users[userId.value])))
      ensures !(userId.Some? && userId.value in users) ==> reply == Failure(400, "User not found")
    {
      if userId.None? || userId.value !in users {
        return Failure(400, "User not found");
      }
      reply := Reply(200, true, None, Some(PublicView(userId.value, users[userId.value])));
    }

    /** `refreshAccessToken`, given the `refreshToken` cookie. The new access
        token carries the refresh token's `userId`; the refresh token is not
        rotated and the account is not looked up. */
    method RefreshAccessToken(refreshCookie: Option<string>, res: Response, now: nat) returns (reply: Reply)
      modifies res
      ensures !Truthy(refreshCookie) ==>
        reply == Failure(401, "Refresh token missing") && res.cookieOps == old(res.cookieOps)
      ensures Truthy(refreshCookie) ==>
        var verdict := Verify(config.signer, refreshCookie.value, RefreshSecret, now);
        && (verdict.Invalid? ==>
              reply == Failure(403, "Invalid refresh token") && res.cookieOps == old(res.cookieOps))
        && (!verdict.Invalid? ==>
              var userId := if verdict.Decoded? then verdict.token.userId else None;
              && reply == Reply(200, true, Some("Access token refreshed"), None)
              && res.cookieOps == old(res.cookieOps) + [SetCookie(Tokens.TokenCookie(config, userId, AccessSecret, now))])
    {
      if !Truthy(refreshCookie) {
        return Failure(401, "Refresh token missing");
      }
      var decoded := Verify(config.signer, refreshCookie.value, RefreshSecret, now);
      if decoded.Invalid? {
        return Failure(403, "Invalid refresh token");
      }
      // a falsy payload has no `userId`
      var userId := if decoded.Decoded? then decoded.token.userId else None;
      var accessToken := config.signer.sign(Token(userId, None, None, AccessSecret, now / 1000 + 15 * 60));
      res.SetCookie(Cookie("accessToken", accessToken, true, Strict, config.production, 15 * 60 * 1000));
      reply := Reply(200, true, Some("Access token refreshed"), None);
    }

    /** The `/check-auth` route: `verifyToken` followed by `checkAuth`. The
        guard fills `req.user` but `checkAuth` reads `req.userId`, so a request
        whose `userId` nobody set never gets a 200, even with a valid token. */
    method CheckAuthRoute(req: Guard.Request, now: nat) returns (reply: Reply)
      modifies req
      ensures old(req.userId).None? ==> reply.status != 200 && !reply.success
      ensures old(req.userId).None? && req.nextCalls == old(req.nextCalls) + 1 ==>
        reply == Failure(400, "User not found")
    {
      var halt := Guard.VerifyToken(req, config.signer, now);
      if halt.Some? {
        return halt.value;
      }
      reply := CheckAuth(req.userId);
    }
  }

  /** Round trip of a session: the refresh cookie issued at login, presented
      before it expires, yields an access cookie for the same account. */
  lemma RefreshKeepsAccount(config: Tokens.Config, id: AccountId, issued: nat, now: nat)
    requires Sound(config.signer) && now + 1000 <= issued + Tokens.RefreshCookieMaxAge
    ensures var refresh := Tokens.IssuedCookies(config, id, issued)[1];
      && Truthy(Some(refresh.value))
      && Verify(config.signer, refresh.value, RefreshSecret, now) == Decoded(Tokens.Mint(Some(id), RefreshSecret, issued))
      && Verify(config.signer, refresh.value, RefreshSecret, now).token.userId == Some(id)
  {
    Tokens.CookieTokenValidity(config, Some(id), RefreshSecret, issued, now);
  }

  /** The access cookie issued at login, presented before it expires, is the
      token the guard picks whatever the headers hold, it verifies under the
      access secret, and the guard's `req.user` is the account that logged in. */
  lemma AccessCookieAdmits(config: Tokens.Config, id: AccountId, issued: nat, now: nat,
                           authorization: Option<string>, xAuthToken: Option<string>)
    requires Sound(config.signer) && now + 1000 <= issued + Tokens.AccessCookieMaxAge
    ensures var access := Tokens.IssuedCookies(config, id, issued)[0];
      && Guard.SelectToken(Some(access.value), authorization, xAuthToken) == Some(access.value)
      && Verify(config.signer, access.value, AccessSecret, now) == Decoded(Tokens.Mint(Some(id), AccessSecret, issued))
      && Guard.Principal(Tokens.Mint(Some(id), AccessSecret, issued)) == Guard.AuthUser(Some(id), None, None)
  {
    var access := Tokens.IssuedCookies(config, id, issued)[0];
    Tokens.CookieTokenValidity(config, Some(id), AccessSecret, issued, now);
    Guard.CookieTakesPrecedence(Some(access.value), authorization, xAuthToken);
  }

  /** A session end to end: a successful login, then a request carrying the
      access cookie it set, made while that cookie has a second of life left.
      The guard admits the request as the account that logged in. */
  method LoginThenVerifyToken(c: AuthController, email: string, password: string, id: AccountId,
                              res: Response, now: nat, later: nat)
    returns (login: Reply, req: Guard.Request, halt: Option<Reply>)
    requires c.Valid() && Sound(c.config.signer)
    requires id in EmailOwners(c.users, email) && c.users[id].password == c.hash(password)
    requires later + 1000 <= now + Tokens.AccessCookieMaxAge
    modifies c, res
    ensures login.status == 200 && login.user.Some? && login.user.value.id == id
    ensures fresh(req) && halt.None? && req.nextCalls == 1
    ensures req.user == Some(Guard.AuthUser(Some(id), None, None))
  {
    var before := |res.cookieOps|;
    login := c.Login(email, password, res, now);
    var access := res.cookieOps[before].cookie;
    AccessCookieAdmits(c.config, id, now, later, None, None);
    req := new Guard.Request(Some(access.value), None, None);
    halt := Guard.VerifyToken(req, c.config.signer, later);
  }

  /** A session end to end: a successful login, then `refreshAccessToken` with
      the refresh cookie it set, while that cookie has a second of life left.
      The reply is 200 and the new access cookie is for the same account. */
  method LoginThenRefresh(c: AuthController, email: string, password: string, id: AccountId,
                          res: Response, now: nat, later: nat)
    returns (login: Reply, refresh: Reply)
    requires c.Valid() && Sound(c.config.signer)
    requires id in EmailOwners(c.users, email) && c.users[id].password == c.hash(password)
    requires later + 1000 <= now + Tokens.RefreshCookieMaxAge
    modifies c, res
    ensures login.status == 200 && refresh == Reply(200, true, Some("Access token refreshed"), None)
    ensures |res.cookieOps| == |old(res.cookieOps)| + 3
    ensures res.cookieOps[|res.cookieOps| - 1] == SetCookie(Tokens.TokenCookie(c.config, Some(id), AccessSecret, later))
  {
    var before := |res.cookieOps|;
    login := c.Login(email, password, res, now);
    var refreshCookie := res.cookieOps[before + 1].cookie;
    RefreshKeepsAccount(c.config, id, now, later);
    refresh := c.RefreshAccessToken(Some(refreshCookie.value), res, later);
  }
}
