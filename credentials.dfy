/** The two libraries both backends delegate to: password hashing
    (`bcrypt.hash` / `bcrypt.compare`) and session tokens (`jwt.sign` /
    `jwt.verify`), modelled by what they guarantee rather than bit by bit. */
module Credentials {
  import opened Wrappers

  /** The cost factor both signup handlers pass to `bcrypt.hash`. */
  const SaltRounds: nat := 10

  /** The random salt bcrypt draws for each hash; the model takes it as an input. */
  type Salt = string

  /** The one-way digest of a password, kept symbolic: two digests are equal exactly
      when their inputs are. */
  datatype Digest = Digest(preimage: string)

  /** A bcrypt hash string: cost factor, salt and digest. */
  datatype PasswordHash = PasswordHash(rounds: nat, salt: Salt, digest: Digest)

  /** `bcrypt.hash(password, 10)` with the salt it drew. */
  function Hash(password: string, salt: Salt): PasswordHash {
    PasswordHash(SaltRounds, salt, Digest(password))
  }

  /** `bcrypt.compare(candidate, hash)`. */
  predicate Compare(candidate: string, hash: PasswordHash) {
    hash.digest == Digest(candidate)
  }

  /** Comparing against a stored hash accepts the password it was made from and
      nothing else, whatever salt was drawn. */
  lemma CompareHash(password: string, candidate: string, salt: Salt)
    ensures Compare(candidate, Hash(password, salt)) <==> candidate == password
    ensures Hash(password, salt).rounds == SaltRounds
  {
  }

  /** `expiresIn: '1h'`, in seconds. */
  const TokenLifetime: int := 3600

  /** The payload of a token. Each backend signs a different subset of these claims;
      an absent claim reads as `undefined` after verification. */
  datatype Claims = Claims(id: Option<nat>, email: Option<string>, username: Option<string>)

  /** A signed token: its claims, `iat`, `exp` and the secret it was signed with. */
  datatype Token = Token(claims: Claims, issuedAt: int, expiresAt: int, signedWith: string)

  /** `jwt.sign(claims, secret, { expiresIn: '1h' })` at time `now` (seconds). */
  function Sign(claims: Claims, secret: string, now: int): (t: Token)
    ensures t.claims == claims && t.issuedAt == now && t.expiresAt == now + TokenLifetime
  {
    Token(claims, now, now + TokenLifetime, secret)
  }

  /** The outcome of `jwt.verify`: the decoded claims, or the error it throws. */
  datatype Verdict = Accepted(claims: Claims) | Rejected(reason: string)

  /** `jwt.verify(token, secret)` at time `now`: the signature is checked first, then
      the expiry; a token is expired from the second `exp` on. */
  function Verify(t: Token, secret: string, now: int): Verdict {
    if t.signedWith != secret then Rejected("invalid signature")
    else if now >= t.expiresAt then Rejected("jwt expired")
    else Accepted(t.claims)
  }

  /** A token verifies under the secret that signed it until one hour after issue,
      and then yields exactly the claims that were signed; under any other secret,
      or later, it is rejected. */
  lemma {:induction false} SignThenVerify(claims: Claims, secret: string, issued: int, verifier: string, now: int)
    ensures Verify(Sign(claims, secret, issued), verifier, now).Accepted?
        <==> verifier == secret && now < issued + TokenLifetime
    ensures Verify(Sign(claims, secret, issued), verifier, now).Accepted?
        ==> Verify(Sign(claims, secret, issued), verifier, now).claims == claims
  {
  }

  /** One space-separated field of an `Authorization` header: a well-formed token,
      or any other text (which `jwt.verify` rejects as malformed). */
  datatype Field = Text(text: string) | Jwt(token: Token)

  /** An `Authorization` header value as the fields `split(' ')` yields: always at least one. */
  datatype Header = Header(first: Field, rest: seq<Field>)

  /** The header `Bearer <token>` a client sends after logging in. */
  function BearerHeader(t: Token): Header {
    Header(Text("Bearer"), [Jwt(t)])
  }

  /** The header is the empty string, the one header value JavaScript treats as false. */
  predicate IsEmptyHeader(h: Header) {
    h.first == Text("") && h.rest == []
  }

  /** `authorization?.split(' ')[1]`: the second field, if the header has one. */
  function SecondField(h: Option<Header>): (f: Option<Field>)
    ensures h.Some? && h.value.rest != [] ==> f == Some(h.value.rest[0])
    ensures h.None? || h.value.rest == [] ==> f.None?
  {
    if h.Some? && h.value.rest != [] then Some(h.value.rest[0]) else None
  }

  /** The header a logged-in client sends hands `jwt.verify` exactly its token. */
  lemma BearerFieldRoundTrip(t: Token, secret: string, now: int)
    ensures SecondField(Some(BearerHeader(t))) == Some(Jwt(t))
    ensures IsTruthy(Jwt(t)) && !IsEmptyHeader(BearerHeader(t))
    ensures VerifyField(SecondField(Some(BearerHeader(t))), secret, now) == Verify(t, secret, now)
  {
  }

  /** A field is a truthy string: any field but the empty one. */
  predicate IsTruthy(f: Field) {
    f != Text("")
  }

  /** `jwt.verify(field, secret)` on a header field, or on `undefined` when the field is absent. */
  function VerifyField(f: Option<Field>, secret: string, now: int): (v: Verdict)
    ensures v.Accepted? <==> f.Some? && f.value.Jwt? && Verify(f.value.token, secret, now).Accepted?
  {
    match f
    case None => Rejected("jwt must be provided")
    case Some(Text(s)) => Rejected(if s == "" then "jwt must be provided" else "jwt malformed")
    case Some(Jwt(t)) => Verify(t, secret, now)
  }
}
