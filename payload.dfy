/**
 * token/payload.go: the identity claim carried by every token, how it is built
 * and how its expiry is checked. The wall clock and `uuid.NewRandom` are inputs.
 */
module TokenPayload {
  import opened Common
  import Codec

  /** The errors the token package and the token libraries it calls can return. */
  datatype TokenError =
    | ExpiredToken            // token.ErrExpiredToken
    | InvalidToken            // token.ErrInvalidToken
    | UuidCreationFailed      // uuid.NewRandom failed
    | EncryptFailed           // the Paseto library could not seal the payload
    | DecryptFailed           // the Paseto library could not open the token (malformed, wrong key)
    | SignFailed              // the JWT library could not sign the claims
    | TokenMalformed          // the JWT library could not split the token or decode a segment
    | TokenSignatureInvalid   // the JWT signing method is not allowed, or the signature does not match
    | TokenUnverifiable       // the JWT algorithm is not registered, or the key function refused a key
    | TokenClaimsExpired      // jwt.ErrTokenExpired: the JWT library's own check of the `exp` claim
    | TokenNotValidYet        // jwt.ErrTokenNotValidYet: the JWT library's own check of the `nbf` claim
    | TokenInvalidClaims(causes: seq<TokenError>)  // jwt.ErrTokenInvalidClaims, joining every failed claims check

  datatype Payload = Payload(id: Uuid, username: string, issuedAt: Time, expiredAt: Time)

  /**
   * What issuing one token asks of the outside world: the two readings of the
   * clock that NewPayload takes (for IssuedAt, then for ExpiredAt), the uuid
   * (None when generation fails) and whether the sealing or signing library fails.
   */
  datatype IssueEnv = IssueEnv(issuedClock: Time, expiryClock: Time, uuid: Option<Uuid>, sealFails: bool)
  {
    /** The clock does not run backwards between the two readings. */
    predicate Monotone() {
      issuedClock <= expiryClock
    }
  }

  /**
   * NewPayload: a uuid failure yields an error and no payload; otherwise the
   * payload carries the fresh id and the username, IssuedAt is the first clock
   * reading and ExpiredAt lies `duration` after the second one.
   */
  function NewPayload(username: string, duration: Duration, env: IssueEnv): (r: Result<Payload, TokenError>)
    ensures r.Err? <==> env.uuid.None?
    ensures r.Err? ==> r.error == UuidCreationFailed
    ensures r.Ok? ==> r.value.id == env.uuid.value && r.value.username == username
    ensures r.Ok? ==> r.value.issuedAt == env.issuedClock
    ensures r.Ok? ==> r.value.expiredAt - r.value.issuedAt == duration + (env.expiryClock - env.issuedClock)
  {
    match env.uuid
    case None => Err(UuidCreationFailed)
    case Some(id) => Ok(Payload(id, username, env.issuedClock, env.expiryClock + duration))
  }

  /**
   * Validate: ErrExpiredToken exactly when the clock lies strictly after
   * ExpiredAt; at ExpiredAt itself the payload is still valid.
   */
  function Validate(p: Payload, now: Time): (r: Option<TokenError>)
    ensures r.None? <==> now <= p.expiredAt
    ensures r.Some? ==> r.value == ExpiredToken
  {
    if After(now, p.expiredAt) then Some(ExpiredToken) else None
  }

  /** A payload is valid for at least `duration` after it was issued, when the clock is monotone. */
  lemma LifetimeAtLeastDuration(username: string, duration: Duration, env: IssueEnv, now: Time)
    requires env.Monotone() && env.uuid.Some?
    requires now <= env.issuedClock + duration
    ensures NewPayload(username, duration, env).Ok?
    ensures Validate(NewPayload(username, duration, env).value, now).None?
  {
  }

  /**
   * A payload created with a negative duration already fails Validate at any
   * instant from the second clock reading on.
   */
  lemma NegativeDurationExpired(username: string, duration: Duration, env: IssueEnv, now: Time)
    requires env.uuid.Some? && duration < 0
    requires now >= env.expiryClock
    ensures Validate(NewPayload(username, duration, env).value, now) == Some(ExpiredToken)
  {
  }

  // ---- the payload's serialised form (the JSON the token libraries produce) ----

  /** The serialised payload; its text never contains whitespace. */
  function EncPayload(p: Payload): (r: string)
    ensures Codec.Plain(r) && |r| > 0
  {
    var a := Codec.EncNat(p.id);
    var b := Codec.EncStr(p.username);
    var c := Codec.EncInt(p.issuedAt);
    var d := Codec.EncInt(p.expiredAt);
    Codec.PlainConcat(a, b);
    Codec.PlainConcat(a + b, c);
    Codec.PlainConcat(a + b + c, d);
    a + b + c + d
  }

  function DecPayload(s: string): Option<(Payload, string)> {
    match Codec.DecNat(s)
    case None => None
    case Some(a) =>
      match Codec.DecStr(a.1)
      case None => None
      case Some(b) =>
        match Codec.DecInt(b.1)
        case None => None
        case Some(c) =>
          match Codec.DecInt(c.1)
          case None => None
          case Some(d) => Some((Payload(a.0, b.0, c.0, d.0), d.1))
  }

  /** Decoding a serialised payload gives the payload back and leaves what follows. */
  lemma DecPayloadEnc(p: Payload, rest: string)
    ensures DecPayload(EncPayload(p) + rest) == Some((p, rest))
  {
    var a := Codec.EncNat(p.id);
    var b := Codec.EncStr(p.username);
    var c := Codec.EncInt(p.issuedAt);
    var d := Codec.EncInt(p.expiredAt);
    assert EncPayload(p) + rest == a + (b + c + d + rest);
    Codec.DecNatEnc(p.id, b + c + d + rest);
    assert b + c + d + rest == b + (c + d + rest);
    Codec.DecStrEnc(p.username, c + d + rest);
    assert c + d + rest == c + (d + rest);
    Codec.DecIntEnc(p.issuedAt, d + rest);
    Codec.DecIntEnc(p.expiredAt, rest);
  }
}
