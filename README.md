# Authentication and session lifecycle of the skyline backend, in Dafny

This project models the authentication core of an Express/Mongoose REST backend.

- **`auth.controller.js`** holds the handlers `signup`, `verifyEmail`, `login`, `logout`, `forgotPassword`, `resetPassword`, `checkAuth` and `refreshAccessToken`. They are modelled as methods of the class `Auth.AuthController`. The class holds the user collection as a `map<AccountId, Account>`, plus the list of emails handed to the mailer (`outbox`).
- **`generateTokens.js`** is modelled in module `Tokens`. It mints the 15-minute access token and the 7-day refresh token, and it sets their two HTTP-only, `SameSite=Strict` cookies on the response.
- **`VerifyToken.js`** is modelled in module `Guard`. It is the access-token middleware: token-source precedence, the `Bearer ` prefix strip, the 401/500 outcomes, and the construction of `req.user`.

Each handler is one atomic step over the store. The model replaces each external dependency as follows:

- **The clock** (`Date.now()`, milliseconds) is a parameter `now`.
- **bcrypt** is a function `hash` fixed when the controller is built. `bcrypt.compare(p, h)` holds exactly when `h == hash(p)`.
- **Signing and verifying JWTs** is done by a `Jwt.Signer`. Its `sign` turns a token into a string. Its `parse` reads back what was signed and under which secret, or reports a forgery. `Jwt.Sound` states that every signed token parses back to itself, and that a compact JWS string is never empty. Expiry follows `jsonwebtoken`: `exp` is the current whole second plus the lifetime, and a token is expired once the current whole second reaches `exp`.
- **`Math.random()`** is the floored draw `Math.random() * 900000`, passed in the range [0, 900000).
- **`crypto.randomBytes(20)`** is 20 bytes passed in.
- **Each email send** is passed in as an outcome, `Delivered` or `Failed(message)`.
- **A new document's `_id`** is passed in, and must be fresh.
- **`process.env`** is modelled as `Tokens.Config`: the production flag, `CLIENT_URL` and the signer.
- **`findOne` on a code or token** may return any matching account. It is modelled as an arbitrary choice among the matches.

## Quirks of the code

Each entry below says what one would expect, then what the code does. The model follows the code.

- **`verifyEmail` leaves the expiry in place.**
  - Expected: verification clears both the code and its expiry, so an account holds both or neither.
  - The code: it clears `verificationToken` and assigns `verificationTokenExpiresAt`, which is not the field signup sets. So `verificationExpiresAt` stays stored after verification (`Auth.VerifiedKeepsStaleExpiry`).
- **`/check-auth` can never answer 200.**
  - Expected: a request with a valid access token gets 200 and the caller's account.
  - The code: `checkAuth` reads `req.userId`, but the guard writes `req.user`. Through this route the reply is 401, 500 or 400, never 200 (`Auth.AuthController.CheckAuthRoute`).
- **The guard answers 500 for a bad token.**
  - Expected: a token that fails verification gets 401.
  - The code: when a token is present but fails verification (forged, signed with the refresh secret, or expired), the guard answers 500 "Server error".
- **`resetPassword` can fail after the reset is saved.**
  - Expected: a 400 from `resetPassword` means the password was not changed.
  - The code: it awaits the confirmation email inside its `try`. A failed send answers 400 after the new password has been saved and the token cleared.
- **`signup` can fail after the account is saved.**
  - Expected: a 500 from `signup` means no account was created.
  - The code: it answers 500 when the verification email fails, although the account is already saved. A retry then gets "User already exists".
- **Login and verifyEmail return the one-time fields.**
  - Expected: the user object sent to the client holds no secrets.
  - The code: their responses remove only `password`. Any pending `verificationToken`, `resetPasswordToken` and their expiries are returned to the client.
- **The token can expire before its cookie.**
  - Expected: a token and the cookie that carries it expire together.
  - The code: token expiry has whole-second granularity, so a token can expire up to one second before its cookie's `maxAge` runs out. It never outlives the cookie.
- **The guard's bearer check is narrower than RFC 6750.**
  - Expected: section 2.1 of RFC 6750 allows a case-insensitive scheme followed by one or more spaces.
  - The code: it accepts only the exact prefix `"Bearer "`, case-sensitive and with one space. Any other header is ignored.

## Model

| member | source | states |
|---|---|---|
| `Auth.AuthController.Signup` | backend/controllers/auth.controller.js:18-82 | A missing or empty field gives 400 "All fields are required" and a taken email gives 400 "User already exists", both with store and outbox unchanged. Otherwise the store gains exactly the new account (password `hash(password)`, 6-digit code, expiry now + 24 h, unverified) and the verification email is attempted. The reply is then 201 with the redacted view, or 500 with the mail error, the account staying saved. Emails stay unique. |
| `Auth.VerificationCode` | backend/controllers/auth.controller.js:43 | The code is 6 decimal digits with no surrounding whitespace, and reads back as the number 100000 + draw, which lies in [100000, 999999]. |
| `Auth.SignupView` | backend/controllers/auth.controller.js:64-73 | The 201 body omits the verification code and its expiry (and, by its type, the password) and carries the account's id, email, name and verification flag. |
| `Auth.SignupErrorMessage` | backend/controllers/auth.controller.js:75-81 | The 500 message is never empty: the mail error's message, or "Something went wrong". |
| `Auth.SignupKeepsEmailsUnique` | backend/controllers/auth.controller.js:31-55 | Adding an account whose email no account holds keeps emails unique across the store. |
| `Auth.EmailOwnersAtMostOne` | backend/controllers/auth.controller.js:134 | With unique emails, `findOne({ email })` has at most one account to choose from. The same query appears in signup (:31) and forgotPassword (:174). |
| `Auth.PublicViewHidesOnlyPassword` | backend/controllers/auth.controller.js:151-154 | The view sent to the client hides the password and nothing else: two accounts give the same view exactly when they differ at most in their password. |
| `Auth.RewriteKeepsInvariant` | backend/controllers/auth.controller.js:103-106 | Saving a fetched account back with the same email and well-formed fields keeps the store's invariant. |
| `Auth.Stringify` | backend/controllers/auth.controller.js:85 | `String(code)` keeps a string unchanged. It turns a number into a numeral that reads back as that number, and an absent code into "undefined". |
| `Auth.CodeMatches` | backend/controllers/auth.controller.js:89-92 | Only accounts holding the code can be returned. The `$gt` is strict, so an account whose expiry is `now` or earlier never matches. |
| `Auth.ResetMatches` | backend/controllers/auth.controller.js:206-209 | Only accounts holding the reset token can be returned, and an account whose reset expiry is `now` or earlier never matches. |
| `Auth.MatchesShrinkOverTime` | backend/controllers/auth.controller.js:91 | As the clock advances, the accounts a code or a reset token selects can only shrink. |
| `Auth.AuthController.VerifyEmail` | backend/controllers/auth.controller.js:84-128 | Succeeds exactly when some account holds the trimmed `String(code)` and its expiry is strictly after `now`. Otherwise it replies 400 "Invalid or expired verification code" and nothing changes. On success, one matching account becomes verified with its code cleared, and nothing else changes. The reply is 200 with that account's view whatever the welcome email's outcome. |
| `Auth.VerifyConsumesCode` | backend/controllers/auth.controller.js:89-106 | After verification, the accounts the same code selects are exactly the previous ones minus the verified account. So a code held by one account fails on reuse. |
| `Auth.VerifiedKeepsStaleExpiry` | backend/controllers/auth.controller.js:103-105 | A verified account has no code but keeps `verificationExpiresAt`, and stays well formed. |
| `Auth.NewCodeLifetime` | backend/controllers/auth.controller.js:51 | A new account's code matches at time t exactly when t < creation + 86400000 ms. |
| `Auth.TypedCodeMatches` | backend/controllers/auth.controller.js:85 | The emailed code still matches when sent with surrounding whitespace, or as the JSON number it spells. |
| `Auth.AuthController.Login` | backend/controllers/auth.controller.js:131-160 | An unknown email and a wrong password both give the identical reply 400 "Invalid credentials", with no cookie and no store change. A correct password sets the access and refresh cookies of `generateTokens`, sets `lastLogin` to `now` and nothing else, and replies 200 with the view. |
| `Auth.AuthController.Logout` | backend/controllers/auth.controller.js:163-167 | Clears the `accessToken` and `refreshToken` cookies, in that order, and replies 200. The store is untouched, so no token is revoked. |
| `Auth.AuthController.ForgotPassword` | backend/controllers/auth.controller.js:171-197 | An unknown email gives 400 "User not found", with no email sent and no change. Otherwise the account alone gets the 40-hex-digit token with expiry now + 1 h, and the reset link is mailed after that. A failed send replies 400 with its message, and the token stays saved. |
| `Auth.ResetToken` | backend/controllers/auth.controller.js:181 | The reset token is 40 lower-case hex digits. |
| `Auth.DrawsGiveDistinctCodes` | backend/controllers/auth.controller.js:43 | Distinct random draws give distinct verification codes. |
| `Auth.BytesGiveDistinctResetTokens` | backend/controllers/auth.controller.js:181 | Distinct random byte strings give distinct reset tokens. |
| `Auth.NewResetTokenLifetime` | backend/controllers/auth.controller.js:182-185 | A stored reset token matches at time t exactly when t < issue + 3600000 ms. |
| `Auth.NewResetTokenRevokesOld` | backend/controllers/auth.controller.js:184-187 | A new request replaces the account's earlier reset token, which then selects exactly the other accounts it selected before. |
| `Auth.AuthController.ResetPassword` | backend/controllers/auth.controller.js:201-230 | Without an account holding the token with expiry strictly after `now`, it replies 400 "Invalid or expired reset token" and nothing changes. Otherwise one matching account gets password `hash(password)` and both reset fields cleared, and only that changes. The confirmation is mailed, and the reply is 200, or 400 with the mail error after the change was saved. |
| `Auth.ResetConsumesToken` | backend/controllers/auth.controller.js:206-221 | After a reset, the token selects exactly the previous accounts minus the reset one, so a token held by one account cannot be used twice. |
| `Auth.AuthController.CheckAuth` | backend/controllers/auth.controller.js:232-244 | Replies 200 with the account's view (no password) when `req.userId` names a stored account, and 400 "User not found" otherwise, including when it is absent. |
| `Auth.AuthController.RefreshAccessToken` | backend/controllers/auth.controller.js:248-273 | With no truthy cookie it replies 401 "Refresh token missing". A cookie that does not verify under the refresh secret at `now` gives 403 "Invalid refresh token"; neither case sets a cookie. Otherwise exactly one new 15-minute access cookie is set, for the refresh token's `userId`, with reply 200. |
| `Auth.RefreshKeepsAccount` | backend/controllers/auth.controller.js:249-257 | A refresh cookie from login, presented while it has a second of life left, is non-empty, so it passes the handler's presence check. It verifies under the refresh secret to its own token, so the new access token is bound to the same account. |
| `Auth.LoginThenRefresh` | backend/routes/auth.route.js:8-11 | After a successful login, `refreshAccessToken` with the refresh cookie login set, presented while that cookie has a second of life left, replies 200. Its one new cookie is the access cookie for the account that logged in. |
| `Auth.AccessCookieAdmits` | backend/middleware/VerifyToken.js:5-42 | Login's access cookie, presented while it has a second of life left, is the token the guard picks whatever the headers hold. It verifies under the access secret, and `req.user` becomes `{ id }` of the account that logged in. |
| `Auth.LoginThenVerifyToken` | backend/routes/auth.route.js:7-11 | After a successful login, a request carrying the access cookie login set, made while that cookie has a second of life left, passes `verifyToken`. `next()` is called once and `req.user` is `{ id }` of the account that logged in. |
| `Auth.AuthController.CheckAuthRoute` | backend/routes/auth.route.js:7 | Through `verifyToken` then `checkAuth`, a request whose `userId` nobody set never gets 200. When the guard calls `next()`, the reply is 400 "User not found". |
| `Tokens.GenerateTokens` | backend/utils/generateTokens.js:3-29 | Appends exactly two cookie operations to the response: the access cookie, then the refresh cookie, each holding the token minted for it. |
| `Tokens.IssuedCookies` | backend/utils/generateTokens.js:15-28 | There are exactly two cookies, named `accessToken` and `refreshToken`. Both are `httpOnly` and `SameSite=Strict`, and `secure` holds exactly in production. |
| `Tokens.CookieMaxAgeIsTokenLifetime` | backend/utils/generateTokens.js:5-28 | Each cookie's `maxAge` equals 1000 times its token's remaining lifetime: 15*60*1000 for the access cookie, 7*24*60*60*1000 for the refresh cookie. |
| `Tokens.CookieTokenValidity` | backend/utils/generateTokens.js:5-20 | A cookie's token verifies under its own secret, to the same account, while a full second of the cookie's life remains. It fails once the cookie has expired. |
| `Tokens.SecretsAreNotInterchangeable` | backend/utils/generateTokens.js:5-12 | A refresh token never verifies under the access secret, and an access token never verifies under the refresh secret. |
| `Jwt.Verify` | backend/middleware/VerifyToken.js:28 | A decoded result was signed with the expected secret and is unexpired at `now`. A falsy result is a falsy payload signed with that secret. |
| `Jwt.VerifySigned` | backend/utils/generateTokens.js:5-12 | With a sound signer, a signed token verifies to itself exactly when the secret matches and `now` is before its `exp`, and is rejected otherwise. |
| `Guard.SelectToken` | backend/middleware/VerifyToken.js:5-18 | The selected token, when there is one, is never empty. |
| `Guard.SelectTokenIsFirstTruthy` | backend/middleware/VerifyToken.js:4-18 | The selected token is the first truthy value among the cookie, the bearer credential and `x-auth-token`, in that order. |
| `Guard.CookieTakesPrecedence` | backend/middleware/VerifyToken.js:5-8 | A non-empty `accessToken` cookie is chosen whatever the headers hold. |
| `Guard.BearerPrefixIsStripped` | backend/middleware/VerifyToken.js:9-12 | Without a usable cookie, `Authorization: Bearer <t>` with non-empty `<t>` yields exactly `<t>`. |
| `Guard.NonBearerHeaderIgnored` | backend/middleware/VerifyToken.js:10 | An `Authorization` header not starting with `"Bearer "` has the same effect as no header. |
| `Guard.EmptyValuesFallThrough` | backend/middleware/VerifyToken.js:16-20 | An empty cookie and a bare `"Bearer "` count as absent, so `x-auth-token` decides, and nothing is selected when it is falsy. |
| `Guard.VerifyToken` | backend/middleware/VerifyToken.js:3-52 | No token gives 401 "Unauthorized - no token provided". A token that fails verification gives 500 "Server error". A falsy payload gives 401 "Unauthorized - invalid token". In those three cases `req.user` and `next` are untouched. A verified token sets `req.user` to its principal and calls `next()` exactly once. `req.userId` is never written. |
| `Text.TrimPadded` | backend/controllers/auth.controller.js:85 | `trim` removes exactly the whitespace padding around a core with no whitespace at its ends. |
| `Text.TrimIsTrimmed` | backend/controllers/auth.controller.js:85 | The result of `trim` has no whitespace at either end, and `trim` is idempotent. |
| `Text.TrimStartShape` | backend/controllers/auth.controller.js:85 | Removing leading whitespace keeps a suffix of the input that does not start with whitespace, and drops only whitespace. |
| `Text.TrimEndShape` | backend/controllers/auth.controller.js:85 | Removing trailing whitespace keeps a prefix of the input that does not end with whitespace, and drops only whitespace. |
| `Text.Decimal` | backend/controllers/auth.controller.js:43 | `toString` of a number is a non-empty string of digits without a leading zero. |
| `Text.DecimalRoundTrip` | backend/controllers/auth.controller.js:43 | Reading the decimal numeral of n back gives n. |
| `Text.DecimalLength` | backend/controllers/auth.controller.js:43 | A number with k decimal digits renders to exactly k characters. |
| `Text.Hex` | backend/controllers/auth.controller.js:181 | `toString("hex")` gives two lower-case hex digits per byte. |
| `Text.HexRoundTrip` | backend/controllers/auth.controller.js:181 | Reading the hex rendering of a byte string back gives the bytes. |

## Left out

- **The two secrets are assumed distinct.** `JWT_SECRET` and `REFRESH_SECRET` are modelled as two different keys (`Jwt.SecretKind`), so a token signed with one never verifies under the other. The source reads them from two environment variables and nothing in it keeps them apart. If both were set to the same value, a refresh token would pass the guard and an access token would refresh. `Tokens.SecretsAreNotInterchangeable` and the secret check in `Jwt.Verify` rely on this assumption, and so does everything built on them. Both secrets are also assumed to be set.
- **Non-string values in signup.** Signup's `email`, `password` and `name` are modelled as optional strings. A JSON body can carry other values, such as a number, an array or an object. In particular, an operator object like `{"$ne": null}` passes the truthiness check, and `findOne({ email })` (auth.controller.js:31) treats it as a query operator, not as an email. That case is not modelled.
- **Operator objects in login and forgotPassword.** The same operator-object case at auth.controller.js:134 and :174 is not modelled either. Those handlers take the email and password as strings.
- **`String(n)` for large numbers.** `Auth.Stringify` renders a numeric code with `Text.Decimal`. That is `String(n)` only for integers below 2^53. Above 2^53 a JavaScript number has lost precision, and from 10^21 on `String` uses exponent form. A 6-digit code is far below both limits, so these inputs could only ever fail to match.

- **The cookie set by `signup`.** `generateTokenAndSetCookie`, which `signup` calls, is not part of this model. Its source is not available, so the model records no cookie for signup.
- **bcrypt internals.** The salt, the cost factor and hash timing are not modelled. bcrypt is the deterministic function `hash`.
- **JWT internals.** The cryptography and the `iat` claim are not modelled, and neither are tokens without `exp` or non-object payloads that are truthy. A falsy payload is the empty-string case. It verifies without an expiry check, and its `userId` is absent. A `null` payload, which would make `refreshAccessToken` throw, is not modelled separately.
- **Floating-point `Math.random()`.** The model takes the floored draw in [0, 900000). It ignores rounding at the very top of the range.
- **Store and library failures.** The model does not cover a store call that throws, nor the resulting 500 in `signup`/`verifyEmail` or 400 in the other handlers. It also leaves out bcrypt rejecting a missing password in `login` and `resetPassword`, and Mongoose's handling of an absent `email` in `login` and `forgotPassword`. Those handlers take the email and password as strings.
- **Unusual request values.** The model does not cover a `code` that is `null`, a boolean, an object, a negative number or a fraction. `String(...)` turns `null` into "null" and a boolean into "true" or "false". None of these can match a 6-digit code, so the model loses only their 400 path. A header sent more than once (an array value) is not modelled either.
- **Response serialisation.** `_id` rendering, `__v`, timestamps added by the schema, and rendering `lastLogin` as a `Date` are not modelled. Times are milliseconds throughout.
- **The user schema.** It is not part of this model. `isVerified` starting false and `lastLogin` starting absent are assumptions.
- **Async sequencing and concurrency.** Interleaved requests racing on the same email and logging are not modelled. Each handler is one atomic step.
- **Where replies go.** The status and JSON body of each handler are returned as a `Reply` value rather than written to `res`. Only cookies are written to `res`.
