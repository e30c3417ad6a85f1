/**
 * token/jwt_maker.go: the signed-claims token maker (a JSON Web Token as in
 * RFC 7519, signed with HMAC SHA-256, "HS256" of section 3.2 of RFC 7518).
 * The HMAC is a stand-in that depends on the key and on the signed text, so a
 * signature checks only under the secret and over the text it was made for.
 */
module Jwt {
  import opened Common
  import Codec
  import opened TokenPayload

  /** minSecretKeySize */
  const MinSecretKeySize: nat := 30

  datatype JwtMaker = JwtMaker(secretKey: seq<byte>)

  /** NewJWTMaker: a secret shorter than MinSecretKeySize is refused; otherwise it is kept as given. */
  function NewJWTMaker(secret: seq<byte>): (r: Result<JwtMaker, string>)
    ensures r.Err? <==> |secret| < MinSecretKeySize
    ensures r.Ok? ==> r.value.secretKey == secret
  {
    if |secret| < MinSecretKeySize then Err("keylength should be at least 30 characters")
    else Ok(JwtMaker(secret))
  }

  // ---- RegClaims: the payload seen through the JWT library's claims interface ----

  datatype RegClaims = RegClaims(payload: Payload)

  /** One second in nanoseconds: the precision of a JWT NumericDate. */
  const Second: nat := 1_000_000_000

  /** jwt.NewNumericDate: the instant truncated to whole seconds. */
  function NumericDate(t: Time): (r: Time)
    ensures r <= t < r + Second
    ensures r % Second == 0
  {
    t - t % Second
  }

  /** `exp` is the payload's ExpiredAt. */
  function GetExpirationTime(c: RegClaims): (r: Time)
    ensures r == NumericDate(c.payload.expiredAt)
    ensures r <= c.payload.expiredAt < r + Second
  {
    NumericDate(c.payload.expiredAt)
  }

  /** `nbf` is not stored: it is the clock at the moment the claims are checked. */
  function GetNotBefore(c: RegClaims, now: Time): (r: Time)
    ensures r == NumericDate(now)
    ensures r <= now < r + Second
  {
    NumericDate(now)
  }

  /** `iat` is the payload's IssuedAt. */
  function GetIssuedAt(c: RegClaims): (r: Time)
    ensures r == NumericDate(c.payload.issuedAt)
    ensures r <= c.payload.issuedAt < r + Second
  {
    NumericDate(c.payload.issuedAt)
  }

  /** `iss` is the constant "none". */
  function GetIssuer(c: RegClaims): (r: string)
    ensures r == "none"
  {
    "none"
  }

  /** `aud` is the constant one-element list ["none"]. */
  function GetAudience(c: RegClaims): (r: seq<string>)
    ensures r == ["none"]
  {
    ["none"]
  }

  /** `sub` is the constant "none": the username travels only inside the payload. */
  function GetSubject(c: RegClaims): (r: string)
    ensures r == "none"
  {
    "none"
  }

  // ---- signing and parsing ----

  /** jwt.SigningMethodHS256.Name */
  const HS256: string := "HS256"

  /** The methods the key function accepts: the HMAC family. */
  predicate IsHmac(alg: string) {
    alg == "HS256" || alg == "HS384" || alg == "HS512"
  }

  /** The text the signature covers: header (the method) and claims. */
  function SigningInput(alg: string, c: RegClaims): (r: string)
    ensures Codec.Plain(r)
  {
    Codec.PlainConcat(Codec.EncStr(alg), EncPayload(c.payload));
    Codec.EncStr(alg) + EncPayload(c.payload)
  }

  /** Stand-in for HMAC: it depends on the key and on the signed text. */
  function Mac(key: seq<byte>, input: string): string {
    Codec.EncBytes(key) + input
  }

  /** jwt.Token.SignedString: the signing input followed by its signature. */
  function SignedString(alg: string, c: RegClaims, key: seq<byte>, signFails: bool): (r: Result<string, TokenError>)
    ensures r.Err? <==> signFails
    ensures r.Ok? ==> Codec.Plain(r.value) && |r.value| > 0
  {
    if signFails then Err(SignFailed)
    else
      var input := SigningInput(alg, c);
      Codec.PlainConcat(input, Codec.EncStr(Mac(key, input)));
      Ok(input + Codec.EncStr(Mac(key, input)))
  }

  /** The three parts of a token: method, claims, signature. */
  datatype Segments = Segments(alg: string, claims: RegClaims, signature: string)

  function Split(token: string): Option<Segments> {
    match Codec.DecStr(token)
    case None => None
    case Some(a) =>
      match DecPayload(a.1)
      case None => None
      case Some(b) =>
        match Codec.DecStr(b.1)
        case None => None
        case Some(c) => if c.1 != "" then None else Some(Segments(a.0, RegClaims(b.0), c.0))
  }

  lemma SplitJoined(alg: string, p: Payload, sig: string)
    ensures Split(Codec.EncStr(alg) + EncPayload(p) + Codec.EncStr(sig)) == Some(Segments(alg, RegClaims(p), sig))
  {
    var a, b, c := Codec.EncStr(alg), EncPayload(p), Codec.EncStr(sig);
    assert a + b + c == a + (b + c);
    Codec.DecStrEnc(alg, b + c);
    DecPayloadEnc(p, c);
    assert c == c + "";
    Codec.DecStrEnc(sig, "");
  }

  lemma SplitSigned(alg: string, c: RegClaims, key: seq<byte>)
    ensures Split(SignedString(alg, c, key, false).value) == Some(Segments(alg, c, Mac(key, SigningInput(alg, c))))
  {
    SplitJoined(alg, c.payload, Mac(key, SigningInput(alg, c)));
  }

  /**
   * The dynamic type of the `Claims` value handed to the parser: RegClaims
   * passed by value, or a pointer to one. Decoded claims keep the same shape.
   */
  datatype ClaimsHolder = ByValue(claims: RegClaims) | ByPointer(claims: RegClaims)

  function Refill(target: ClaimsHolder, c: RegClaims): (r: ClaimsHolder)
    ensures r.claims == c && (r.ByValue? <==> target.ByValue?)
  {
    match target
    case ByValue(_) => ByValue(c)
    case ByPointer(_) => ByPointer(c)
  }

  /** The key function of VerifyToken: a method outside the HMAC family gets ErrInvalidToken. */
  function KeyFunc(j: JwtMaker, alg: string): (r: Result<seq<byte>, TokenError>)
    ensures r.Err? <==> !IsHmac(alg)
    ensures r.Err? ==> r.error == InvalidToken
    ensures r.Ok? ==> r.value == j.secretKey
  {
    if !IsHmac(alg) then Err(InvalidToken) else Ok(j.secretKey)
  }

  /** The `alg` names the JWT library has a signing method registered for. */
  predicate IsRegistered(alg: string) {
    alg in {"HS256", "HS384", "HS512", "RS256", "RS384", "RS512", "ES256", "ES384", "ES512",
            "PS256", "PS384", "PS512", "EdDSA", "none"}
  }

  /**
   * Validator.Validate on a claims holder that decoded: every failed check
   * adds its error, in the library's order. `exp` is checked against the
   * validator's clock reading `now`; `nbf` is GetNotBefore's own reading
   * `nbfClock`; last, *RegClaims is a ClaimsValidator through the Validate
   * method it takes from the embedded Payload, which reads the clock a third
   * time, `claimsClock`.
   */
  function ClaimsErrors(c: RegClaims, now: Time, nbfClock: Time, claimsClock: Time): (r: seq<TokenError>)
    ensures TokenClaimsExpired in r <==> GetExpirationTime(c) <= now
    ensures TokenNotValidYet in r <==> now < GetNotBefore(c, nbfClock)
    ensures ExpiredToken in r <==> Validate(c.payload, claimsClock).Some?
    ensures forall i :: 0 <= i < |r| ==> r[i] in [TokenClaimsExpired, TokenNotValidYet, ExpiredToken]
    ensures forall i, k :: 0 <= i < k < |r| ==> r[i] != r[k]
  {
    (if now < GetExpirationTime(c) then [] else [TokenClaimsExpired])
    + (if now < GetNotBefore(c, nbfClock) then [TokenNotValidYet] else [])
    + (match Validate(c.payload, claimsClock) case None => [] case Some(e) => [e])
  }

  /**
   * Parser.ParseWithClaims with the option WithValidMethods(["HS256"]), in the
   * library's order. It splits the token and decodes the claims into the
   * holder it is given. encoding/json cannot decode into a RegClaims held by
   * value in the Claims interface, so a by-value holder fails there with
   * ErrTokenMalformed, before anything else is looked at. Then an `alg` with
   * no registered method is unverifiable. A method outside the list is
   * refused. The key function is asked (its error is unverifiable) and the
   * signature checked. Last, the claims are validated (ClaimsErrors) and
   * any failure is returned as ErrTokenInvalidClaims joining all of them.
   */
  function ParseWithClaims(j: JwtMaker, token: string, target: ClaimsHolder, now: Time, nbfClock: Time,
                           claimsClock: Time)
    : (r: Result<ClaimsHolder, TokenError>)
    ensures target.ByValue? ==> r == Err(TokenMalformed)
    ensures r.Ok? ==> Split(token).Some? && Split(token).value.alg == HS256
    ensures r.Ok? ==> Split(token).value.signature == Mac(j.secretKey, SigningInput(HS256, Split(token).value.claims))
    ensures r.Ok? ==> r.value == Refill(target, Split(token).value.claims)
    ensures r.Ok? ==> now < GetExpirationTime(r.value.claims) && GetNotBefore(r.value.claims, nbfClock) <= now
    ensures r.Ok? ==> claimsClock <= r.value.claims.payload.expiredAt
    ensures target.ByPointer? && Split(token).Some? && Split(token).value.alg == HS256
            && Split(token).value.signature == Mac(j.secretKey, SigningInput(HS256, Split(token).value.claims))
            && r.Err? ==>
              r.error.TokenInvalidClaims? && r.error.causes != []
              && r.error.causes == ClaimsErrors(Split(token).value.claims, now, nbfClock, claimsClock)
  {
    match Split(token)
    case None => Err(TokenMalformed)
    case Some(seg) =>
      if target.ByValue? then Err(TokenMalformed)
      else if !IsRegistered(seg.alg) then Err(TokenUnverifiable)
      else if seg.alg != HS256 then Err(TokenSignatureInvalid)
      else
        match KeyFunc(j, seg.alg)
        case Err(_) => Err(TokenUnverifiable)
        case Ok(key) =>
          if seg.signature != Mac(key, SigningInput(seg.alg, seg.claims)) then Err(TokenSignatureInvalid)
          else
            var errs := ClaimsErrors(seg.claims, now, nbfClock, claimsClock);
            if errs != [] then Err(TokenInvalidClaims(errs)) else Ok(Refill(target, seg.claims))
  }

  /**
   * CreateToken, in the three-value shape its callers use: the claims of the
   * payload NewPayload built, signed with HS256 under the secret; NewPayload and
   * signing errors are returned with no token.
   */
  function CreateToken(j: JwtMaker, username: string, duration: Duration, env: IssueEnv)
    : (r: Result<(string, Payload), TokenError>)
    ensures r.Err? <==> env.uuid.None? || env.sealFails
    ensures r.Err? && env.uuid.Some? ==> r.error == SignFailed
    ensures r.Ok? ==> NewPayload(username, duration, env) == Ok(r.value.1)
    ensures r.Ok? ==> Codec.Plain(r.value.0) && |r.value.0| > 0
    ensures r.Ok? ==> Split(r.value.0) == Some(Segments(HS256, RegClaims(r.value.1), Mac(j.secretKey, SigningInput(HS256, RegClaims(r.value.1)))))
  {
    match NewPayload(username, duration, env)
    case Err(e) => Err(e)
    case Ok(p) =>
      match SignedString(HS256, RegClaims(p), j.secretKey, env.sealFails)
      case Err(e) => Err(e)
      case Ok(t) =>
        SplitSigned(HS256, RegClaims(p), j.secretKey);
        Ok((t, p))
  }

  /** The zero Payload, the content of `RegClaims{}`. */
  const ZeroPayload: Payload := Payload(NilUuid, "", 0, 0)

  /**
   * VerifyToken as written: the claims handed to the parser are a RegClaims
   * value, so the parse fails at the claims decode and its ErrTokenMalformed
   * is returned for every token. The `*RegClaims` assertion is never reached.
   */
  function VerifyToken(j: JwtMaker, token: string, now: Time, nbfClock: Time, claimsClock: Time)
    : (r: Result<Payload, TokenError>)
    ensures r == Err(TokenMalformed)
  {
    match ParseWithClaims(j, token, ByValue(RegClaims(ZeroPayload)), now, nbfClock, claimsClock)
    case Err(e) => Err(e)
    case Ok(holder) =>
      match holder
      case ByPointer(c) => Ok(c.payload)
      case ByValue(_) => Err(InvalidToken)
  }

  /**
   * Even a token this maker has just created, checked well before it expires,
   * within the second of its `nbf` reading and with the payload's own check
   * passing, is refused as malformed.
   */
  lemma FreshTokenRefused(j: JwtMaker, username: string, duration: Duration, env: IssueEnv,
                          now: Time, nbfClock: Time, claimsClock: Time)
    requires CreateToken(j, username, duration, env).Ok?
    requires now < GetExpirationTime(RegClaims(CreateToken(j, username, duration, env).value.1))
    requires NumericDate(nbfClock) <= now
    requires claimsClock <= CreateToken(j, username, duration, env).value.1.expiredAt
    ensures VerifyTokenByPointer(j, CreateToken(j, username, duration, env).value.0, now, nbfClock, claimsClock).Ok?
    ensures VerifyToken(j, CreateToken(j, username, duration, env).value.0, now, nbfClock, claimsClock) == Err(TokenMalformed)
  {
    RoundTripByPointer(j, username, duration, env, now, nbfClock, claimsClock);
  }

  /**
   * VerifyToken as evidently intended: the parser gets a *RegClaims, so the
   * claims decode and the type assertion hold, and the payload of a valid
   * token is returned.
   */
  function VerifyTokenByPointer(j: JwtMaker, token: string, now: Time, nbfClock: Time, claimsClock: Time)
    : (r: Result<Payload, TokenError>)
    ensures r.Ok? <==> ParseWithClaims(j, token, ByPointer(RegClaims(ZeroPayload)), now, nbfClock, claimsClock).Ok?
    ensures r.Ok? ==> Split(token).Some? && r.value == Split(token).value.claims.payload
    ensures r.Err? ==> r.error == ParseWithClaims(j, token, ByPointer(RegClaims(ZeroPayload)), now, nbfClock, claimsClock).error
  {
    match ParseWithClaims(j, token, ByPointer(RegClaims(ZeroPayload)), now, nbfClock, claimsClock)
    case Err(e) => Err(e)
    case Ok(holder) =>
      match holder
      case ByPointer(c) => Ok(c.payload)
      case ByValue(_) => Err(InvalidToken)
  }

  /**
   * Round trip for the corrected verifier: before `exp`, a fresh token
   * verifies to its payload, provided the second clock reading taken for
   * `nbf` falls in a second that has begun by `now` and the third one, taken
   * by the payload's Validate, is not after ExpiredAt.
   */
  lemma RoundTripByPointer(j: JwtMaker, username: string, duration: Duration, env: IssueEnv,
                           now: Time, nbfClock: Time, claimsClock: Time)
    requires CreateToken(j, username, duration, env).Ok?
    requires now < GetExpirationTime(RegClaims(CreateToken(j, username, duration, env).value.1))
    requires NumericDate(nbfClock) <= now
    requires claimsClock <= CreateToken(j, username, duration, env).value.1.expiredAt
    ensures VerifyTokenByPointer(j, CreateToken(j, username, duration, env).value.0, now, nbfClock, claimsClock)
         == Ok(CreateToken(j, username, duration, env).value.1)
    ensures CreateToken(j, username, duration, env).value.1.username == username
  {
  }

  /** When only the payload's own check fails, it is the only cause. */
  lemma OnlyPayloadCheckFails(c: RegClaims, now: Time, nbfClock: Time, claimsClock: Time)
    requires now < GetExpirationTime(c) && NumericDate(nbfClock) <= now
    requires claimsClock > c.payload.expiredAt
    ensures ClaimsErrors(c, now, nbfClock, claimsClock) == [ExpiredToken]
  {
    assert ClaimsErrors(c, now, nbfClock, claimsClock) == [] + [] + [ExpiredToken];
  }

  /** When only the `nbf` check fails, it is the only cause. */
  lemma OnlyNotBeforeFails(c: RegClaims, now: Time, nbfClock: Time, claimsClock: Time)
    requires now < GetExpirationTime(c) && now < NumericDate(nbfClock)
    requires claimsClock <= c.payload.expiredAt
    ensures ClaimsErrors(c, now, nbfClock, claimsClock) == [TokenNotValidYet]
  {
    assert ClaimsErrors(c, now, nbfClock, claimsClock) == [] + [TokenNotValidYet] + [];
  }

  /** For a token this maker created, verification comes down to the claims checks. */
  lemma VerifyCreated(j: JwtMaker, username: string, duration: Duration, env: IssueEnv,
                      now: Time, nbfClock: Time, claimsClock: Time)
    requires CreateToken(j, username, duration, env).Ok?
    ensures var p := CreateToken(j, username, duration, env).value.1;
      var errs := ClaimsErrors(RegClaims(p), now, nbfClock, claimsClock);
      VerifyTokenByPointer(j, CreateToken(j, username, duration, env).value.0, now, nbfClock, claimsClock)
        == if errs == [] then Ok(p) else Err(TokenInvalidClaims(errs))
  {
  }

  /** A token whose `exp` has passed is refused, the library's expiry error among the causes. */
  lemma ExpiredClaimsRefused(j: JwtMaker, username: string, duration: Duration, env: IssueEnv,
                             now: Time, nbfClock: Time, claimsClock: Time)
    requires CreateToken(j, username, duration, env).Ok?
    requires now >= GetExpirationTime(RegClaims(CreateToken(j, username, duration, env).value.1))
    ensures var r := VerifyTokenByPointer(j, CreateToken(j, username, duration, env).value.0, now, nbfClock, claimsClock);
      r.Err? && r.error.TokenInvalidClaims? && TokenClaimsExpired in r.error.causes
  {
  }

  /**
   * The payload's own Validate reads the clock once more: a fresh token that
   * passes the `exp` and `nbf` checks is still refused when that third
   * reading falls after ExpiredAt, with ErrExpiredToken as the only cause.
   */
  lemma ClaimsClockAfterExpiry(j: JwtMaker, username: string, duration: Duration, env: IssueEnv,
                               now: Time, nbfClock: Time, claimsClock: Time)
    requires CreateToken(j, username, duration, env).Ok?
    requires now < GetExpirationTime(RegClaims(CreateToken(j, username, duration, env).value.1))
    requires NumericDate(nbfClock) <= now
    requires claimsClock > CreateToken(j, username, duration, env).value.1.expiredAt
    ensures VerifyTokenByPointer(j, CreateToken(j, username, duration, env).value.0, now, nbfClock, claimsClock)
         == Err(TokenInvalidClaims([ExpiredToken]))
  {
    var c := RegClaims(CreateToken(j, username, duration, env).value.1);
    VerifyCreated(j, username, duration, env, now, nbfClock, claimsClock);
    OnlyPayloadCheckFails(c, now, nbfClock, claimsClock);
  }

  /**
   * Only HS256 is accepted: a token signed under the same secret with any
   * other registered method, HMAC or not, is refused before the key function
   * is asked.
   */
  lemma OnlyHS256Accepted(j: JwtMaker, alg: string, c: RegClaims, now: Time, nbfClock: Time, claimsClock: Time)
    requires IsRegistered(alg) && alg != HS256
    ensures VerifyTokenByPointer(j, SignedString(alg, c, j.secretKey, false).value, now, nbfClock, claimsClock) == Err(TokenSignatureInvalid)
  {
    SplitSigned(alg, c, j.secretKey);
  }

  /** A token whose `alg` names no registered method cannot be verified at all. */
  lemma UnregisteredUnverifiable(j: JwtMaker, alg: string, c: RegClaims, now: Time, nbfClock: Time, claimsClock: Time)
    requires !IsRegistered(alg)
    ensures VerifyTokenByPointer(j, SignedString(alg, c, j.secretKey, false).value, now, nbfClock, claimsClock) == Err(TokenUnverifiable)
  {
    SplitSigned(alg, c, j.secretKey);
  }

  /** A token signed under another secret is refused. */
  lemma OtherSecretRefused(j: JwtMaker, other: JwtMaker, c: RegClaims, now: Time, nbfClock: Time, claimsClock: Time)
    requires other.secretKey != j.secretKey
    ensures VerifyTokenByPointer(other, SignedString(HS256, c, j.secretKey, false).value, now, nbfClock, claimsClock) == Err(TokenSignatureInvalid)
  {
    SplitSigned(HS256, c, j.secretKey);
    var input := SigningInput(HS256, c);
    if Mac(j.secretKey, input) == Mac(other.secretKey, input) {
      Codec.DecBytesEnc(j.secretKey, input);
      Codec.DecBytesEnc(other.secretKey, input);
      assert false;
    }
  }

  /**
   * The `nbf` check reads the clock a second time. With the clock not running
   * backwards between the validator's reading `now` and that second reading,
   * it refuses exactly when the two readings fall in different seconds.
   */
  lemma NotBeforeRefusesAcrossSecond(c: RegClaims, now: Time, nbfClock: Time)
    requires now <= nbfClock
    ensures now < GetNotBefore(c, nbfClock) <==> NumericDate(now) < NumericDate(nbfClock)
  {
    var a, b := NumericDate(now), NumericDate(nbfClock);
    if a < b {
      SecondsApart(a, b);
    }
  }

  /** Two distinct whole seconds lie at least a second apart. */
  lemma SecondsApart(a: Time, b: Time)
    requires a % Second == 0 && b % Second == 0 && a < b
    ensures a + Second <= b
  {
    var qa, qb := a / Second, b / Second;
    assert a == qa * Second && b == qb * Second;
    assert qa < qb;
    assert (qa + 1) * Second <= qb * Second;
  }

  /**
   * A fresh token refused by the corrected verifier: checked at the last
   * nanosecond of a second while GetNotBefore reads the clock 2 ns later
   * (and the payload's Validate 3 ns later), the token is not valid yet.
   */
  lemma FreshTokenNotValidYet(j: JwtMaker, username: string, duration: Duration, env: IssueEnv)
    requires CreateToken(j, username, duration, env).Ok?
    requires 2 * Second <= GetExpirationTime(RegClaims(CreateToken(j, username, duration, env).value.1))
    ensures VerifyTokenByPointer(j, CreateToken(j, username, duration, env).value.0, Second - 1, Second + 1, Second + 2)
         == Err(TokenInvalidClaims([TokenNotValidYet]))
  {
    assert NumericDate(Second + 1) == Second;
    NotValidYetRefused(j, username, duration, env, Second - 1, Second + 1, Second + 2);
  }

  /**
   * A fresh token whose `nbf` reading falls in a later second than `now` is
   * refused as not valid yet, and for that reason alone while the other two
   * checks pass.
   */
  lemma NotValidYetRefused(j: JwtMaker, username: string, duration: Duration, env: IssueEnv,
                           now: Time, nbfClock: Time, claimsClock: Time)
    requires CreateToken(j, username, duration, env).Ok?
    requires now < GetExpirationTime(RegClaims(CreateToken(j, username, duration, env).value.1))
    requires now < NumericDate(nbfClock)
    requires claimsClock <= CreateToken(j, username, duration, env).value.1.expiredAt
    ensures VerifyTokenByPointer(j, CreateToken(j, username, duration, env).value.0, now, nbfClock, claimsClock)
         == Err(TokenInvalidClaims([TokenNotValidYet]))
  {
    var c := RegClaims(CreateToken(j, username, duration, env).value.1);
    VerifyCreated(j, username, duration, env, now, nbfClock, claimsClock);
    OnlyNotBeforeFails(c, now, nbfClock, claimsClock);
  }
}
