/** JSON Web Tokens as the `jsonwebtoken` library is used by the backend:
    `jwt.sign(payload, secret, { expiresIn })` and `jwt.verify(token, secret)`.
    Signatures and their cryptography are abstract: a `Signer` turns a token
    into its compact string and parses a string back into what was signed and
    with which secret (or reports that no secret of the server signed it). */
module Jwt {
  import opened Wrappers

  /** Mongo's `_id` of an account. */
  type AccountId = nat

  /** The two server secrets: `JWT_SECRET` for access tokens and
      `REFRESH_SECRET` for refresh tokens. */
  datatype SecretKind = AccessSecret | RefreshSecret

  /** A signed object payload. `exp` is in whole seconds since the epoch,
      as `jsonwebtoken` writes it; the optional claims are the ones the
      access-token guard reads. */
  datatype Token = Token(
    userId: Option<AccountId>,
    email: Option<string>,
    role: Option<string>,
    kind: SecretKind,
    exp: int)

  /** What a compact string holds: nothing the server signed, a falsy
      non-object payload (such as the empty string, which carries no `exp`),
      or a token. */
  datatype Parsed = Forged | FalsyPayload(signedWith: SecretKind) | Signed(token: Token)

  datatype Signer = Signer(sign: Token -> string, parse: string -> Parsed)

  /** A signature scheme in which every signed token parses back to itself,
      and whose compact strings (`header.payload.signature`) are never empty. */
  ghost predicate Sound(signer: Signer) {
    forall t :: signer.parse(signer.sign(t)) == Signed(t) && signer.sign(t) != ""
  }

  /** The outcome of `jwt.verify`: it throws (`Invalid`), or returns the payload. */
  datatype Verdict = Invalid | Falsy | Decoded(token: Token)

  /** `jwt.verify(s, secret)` at clock `now` (milliseconds): the signature must
      be made with `secret`, and the token is expired once the current whole
      second reaches `exp`. */
  function Verify(signer: Signer, s: string, secret: SecretKind, now: nat): (v: Verdict)
    ensures v.Decoded? ==> signer.parse(s) == Signed(v.token)
    ensures v.Decoded? ==> v.token.kind == secret && now / 1000 < v.token.exp
    ensures v.Falsy? ==> signer.parse(s) == FalsyPayload(secret)
  {
    match signer.parse(s)
    case Forged => Invalid
    case FalsyPayload(k) => if k == secret then Falsy else Invalid
    case Signed(t) => if t.kind == secret && now / 1000 < t.exp then Decoded(t) else Invalid
  }

  /** A token the server signed verifies under its own secret until it
      expires, and under no other secret at any time. */
  lemma VerifySigned(signer: Signer, t: Token, secret: SecretKind, now: nat)
    requires Sound(signer)
    ensures Verify(signer, signer.sign(t), secret, now)
            == if t.kind == secret && now / 1000 < t.exp then Decoded(t) else Invalid
  {
    assert signer.parse(signer.sign(t)) == Signed(t);
  }
}
