/**
 * token/paseto_maker.go: the authenticated-encryption token maker (Paseto
 * v2.local, whose XChaCha20-Poly1305 cipher takes the 256-bit key of section 2.8
 * of RFC 8439). The cipher itself is a stand-in: a sealed token records the key
 * it was sealed under, and opening succeeds only under that same key.
 */
module Paseto {
  import opened Common
  import Codec
  import opened TokenPayload

  /** chacha20poly1305.KeySize: the key is exactly 32 bytes. */
  const KeySize: nat := 32

  /** The maker is a value: its key is fixed at construction and never changes. */
  datatype PasetoMaker = PasetoMaker(symmetricKey: seq<byte>)

  /** NewPasetoMaker: the key must be exactly KeySize bytes long, and is kept as given. */
  function NewPasetoMaker(key: seq<byte>): (r: Result<PasetoMaker, string>)
    ensures r.Ok? <==> |key| == KeySize
    ensures r.Ok? ==> r.value.symmetricKey == key
  {
    if |key| != KeySize then Err("invalid key size. must be exactly 32")
    else Ok(PasetoMaker(key))
  }

  /** The fixed header of every v2.local token. */
  const Header: string := "v2.local."

  lemma HeaderPlain()
    ensures Codec.Plain(Header)
  {
  }

  /** paseto.V2.Encrypt, as a stand-in seal of the payload under the key. */
  function Encrypt(key: seq<byte>, p: Payload): (token: string)
    ensures |token| > |Header| && token[..|Header|] == Header
    ensures Codec.Plain(token)
  {
    HeaderPlain();
    Codec.PlainConcat(Header, Codec.EncBytes(key));
    Codec.PlainConcat(Header + Codec.EncBytes(key), EncPayload(p));
    Header + Codec.EncBytes(key) + EncPayload(p)
  }

  /** paseto.V2.Decrypt: fails unless the token was sealed under this very key. */
  function Decrypt(token: string, key: seq<byte>): Result<Payload, TokenError> {
    if |token| < |Header| || token[..|Header|] != Header then Err(DecryptFailed)
    else
      match Codec.DecBytes(token[|Header|..])
      case None => Err(DecryptFailed)
      case Some(sealed) =>
        if sealed.0 != key then Err(DecryptFailed)
        else
          match DecPayload(sealed.1)
          case None => Err(DecryptFailed)
          case Some(q) => if q.1 != "" then Err(DecryptFailed) else Ok(q.0)
  }

  /** Opening a sealed token under the key it was sealed with gives the payload back. */
  lemma DecryptEncrypt(key: seq<byte>, p: Payload)
    ensures Decrypt(Encrypt(key, p), key) == Ok(p)
  {
    var t := Encrypt(key, p);
    assert t[|Header|..] == Codec.EncBytes(key) + (EncPayload(p) + "");
    Codec.DecBytesEnc(key, EncPayload(p) + "");
    DecPayloadEnc(p, "");
  }

  /** Opening a sealed token under any other key fails. */
  lemma DecryptWrongKey(key: seq<byte>, other: seq<byte>, p: Payload)
    requires other != key
    ensures Decrypt(Encrypt(key, p), other) == Err(DecryptFailed)
  {
    var t := Encrypt(key, p);
    assert t[|Header|..] == Codec.EncBytes(key) + EncPayload(p);
    Codec.DecBytesEnc(key, EncPayload(p));
  }

  /**
   * CreateToken, in the three-value shape its callers use: a NewPayload error
   * or an encryption error is returned with no token; otherwise the token seals
   * exactly the payload NewPayload built, and that payload is returned beside it.
   */
  function CreateToken(m: PasetoMaker, username: string, duration: Duration, env: IssueEnv)
    : (r: Result<(string, Payload), TokenError>)
    ensures r.Err? <==> env.uuid.None? || env.sealFails
    ensures r.Err? && env.uuid.None? ==> r.error == UuidCreationFailed
    ensures r.Err? && env.uuid.Some? ==> r.error == EncryptFailed
    ensures r.Ok? ==> NewPayload(username, duration, env) == Ok(r.value.1)
    ensures r.Ok? ==> Codec.Plain(r.value.0) && |r.value.0| > 0
    ensures r.Ok? ==> Decrypt(r.value.0, m.symmetricKey) == Ok(r.value.1)
  {
    match NewPayload(username, duration, env)
    case Err(e) => Err(e)
    case Ok(p) =>
      if env.sealFails then Err(EncryptFailed)
      else
        DecryptEncrypt(m.symmetricKey, p);
        Ok((Encrypt(m.symmetricKey, p), p))
  }

  /**
   * VerifyToken: decrypt, then Validate. A token that does not open yields the
   * decryption error; one that opens but has expired yields ErrExpiredToken;
   * in both cases no payload is returned.
   */
  function VerifyToken(m: PasetoMaker, token: string, now: Time): (r: Result<Payload, TokenError>)
    ensures r.Ok? <==> Decrypt(token, m.symmetricKey).Ok? && now <= Decrypt(token, m.symmetricKey).value.expiredAt
    ensures r.Ok? ==> r.value == Decrypt(token, m.symmetricKey).value
    ensures r.Err? && Decrypt(token, m.symmetricKey).Ok? ==> r.error == ExpiredToken
    ensures Decrypt(token, m.symmetricKey).Err? ==> r == Err(DecryptFailed)
  {
    match Decrypt(token, m.symmetricKey)
    case Err(e) => Err(e)
    case Ok(p) =>
      match Validate(p, now)
      case Some(e) => Err(e)
      case None => Ok(p)
  }

  /**
   * Round trip: a token created by a maker verifies, with the same maker and
   * before it expires, to the payload created with it: the same username, and
   * an expiry `duration` after the issue time up to the clock's drift between
   * NewPayload's two readings.
   */
  lemma RoundTrip(m: PasetoMaker, username: string, duration: Duration, env: IssueEnv, now: Time)
    requires CreateToken(m, username, duration, env).Ok?
    requires now <= CreateToken(m, username, duration, env).value.1.expiredAt
    ensures VerifyToken(m, CreateToken(m, username, duration, env).value.0, now)
         == Ok(CreateToken(m, username, duration, env).value.1)
    ensures CreateToken(m, username, duration, env).value.1.username == username
    ensures CreateToken(m, username, duration, env).value.1.expiredAt
         == CreateToken(m, username, duration, env).value.1.issuedAt + duration + (env.expiryClock - env.issuedClock)
  {
  }

  /** A token created with a negative duration fails verification with ErrExpiredToken. */
  lemma ExpiredTokenRejected(m: PasetoMaker, username: string, duration: Duration, env: IssueEnv, now: Time)
    requires duration < 0 && now >= env.expiryClock
    requires CreateToken(m, username, duration, env).Ok?
    ensures VerifyToken(m, CreateToken(m, username, duration, env).value.0, now) == Err(ExpiredToken)
  {
  }

  /** A token created by one maker does not verify under a maker with a different key. */
  lemma OtherKeyRejected(m: PasetoMaker, other: PasetoMaker, username: string, duration: Duration, env: IssueEnv, now: Time)
    requires other.symmetricKey != m.symmetricKey
    requires CreateToken(m, username, duration, env).Ok?
    ensures VerifyToken(other, CreateToken(m, username, duration, env).value.0, now) == Err(DecryptFailed)
  {
    var p := CreateToken(m, username, duration, env).value.1;
    DecryptWrongKey(m.symmetricKey, other.symmetricKey, p);
  }
}
