/**
 * The token.Maker interface: one of the two makers, chosen once when a server
 * is built, behind the operations CreateToken and VerifyToken.
 */
module TokenMaker {
  import opened Common
  import opened TokenPayload
  import Paseto
  import Jwt
  import Codec

  datatype Maker = PasetoMaker(paseto: Paseto.PasetoMaker) | JwtMaker(jwt: Jwt.JwtMaker)

  /** CreateToken of the chosen maker: (token, payload) or the maker's error. */
  function CreateToken(m: Maker, username: string, duration: Duration, env: IssueEnv)
    : (r: Result<(string, Payload), TokenError>)
    ensures r.Err? <==> env.uuid.None? || env.sealFails
    ensures r.Ok? ==> NewPayload(username, duration, env) == Ok(r.value.1)
    ensures r.Ok? ==> r.value.1.username == username
    ensures r.Ok? ==> Codec.Plain(r.value.0) && |r.value.0| > 0
  {
    match m
    case PasetoMaker(p) => Paseto.CreateToken(p, username, duration, env)
    case JwtMaker(j) => Jwt.CreateToken(j, username, duration, env)
  }

  /**
   * VerifyToken of the chosen maker. `now` is the verifier's clock reading;
   * the signed-claims maker reads the clock twice more, for `nbf`
   * (`nbfClock`) and in the payload's own Validate (`claimsClock`). That maker is taken in its corrected form
   * (Jwt.VerifyTokenByPointer); as written it refuses every token.
   */
  function VerifyToken(m: Maker, token: string, now: Time, nbfClock: Time, claimsClock: Time)
    : (r: Result<Payload, TokenError>)
    ensures m.PasetoMaker? ==> r == Paseto.VerifyToken(m.paseto, token, now)
    ensures m.JwtMaker? ==> r == Jwt.VerifyTokenByPointer(m.jwt, token, now, nbfClock, claimsClock)
    ensures m.PasetoMaker? && r.Ok? ==> now <= r.value.expiredAt
    ensures m.JwtMaker? && r.Ok? ==> now < Jwt.NumericDate(r.value.expiredAt) && claimsClock <= r.value.expiredAt
  {
    match m
    case PasetoMaker(p) => Paseto.VerifyToken(p, token, now)
    case JwtMaker(j) => Jwt.VerifyTokenByPointer(j, token, now, nbfClock, claimsClock)
  }

  /**
   * Whichever maker is chosen, a token it has just created verifies under the
   * same maker to the payload created with it, as long as the check happens
   * before the start of the second in which the token expires and, for the
   * signed-claims maker, the `nbf` reading falls in a second begun by `now`
   * and the payload's own reading is not after ExpiredAt.
   */
  lemma RoundTrip(m: Maker, username: string, duration: Duration, env: IssueEnv,
                  now: Time, nbfClock: Time, claimsClock: Time)
    requires CreateToken(m, username, duration, env).Ok?
    requires now < Jwt.NumericDate(CreateToken(m, username, duration, env).value.1.expiredAt)
    requires m.JwtMaker? ==> Jwt.NumericDate(nbfClock) <= now
    requires m.JwtMaker? ==> claimsClock <= CreateToken(m, username, duration, env).value.1.expiredAt
    ensures VerifyToken(m, CreateToken(m, username, duration, env).value.0, now, nbfClock, claimsClock)
         == Ok(CreateToken(m, username, duration, env).value.1)
  {
    match m
    case PasetoMaker(p) => Paseto.RoundTrip(p, username, duration, env, now);
    case JwtMaker(j) => Jwt.RoundTripByPointer(j, username, duration, env, now, nbfClock, claimsClock);
  }
}
