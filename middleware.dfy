/**
 * api/middleware.go: the authorization middleware in front of the account,
 * transfer and user routes. It reads an `authorization: bearer <token>`
 * header (the scheme compared case-insensitively, as section 2.1 of RFC 6750
 * has it), verifies the token and hands its payload to the handlers.
 */
module ApiMiddleware {
  import opened Common
  import opened TokenPayload
  import TokenMaker
  import Codec
  import opened ApiServer

  const AuthorizationHeaderKey: string := "authorization"
  const AuthorizationTypeBearer: string := "bearer"

  /** unicode.IsSpace: the white space strings.Fields splits on. */
  predicate IsSpace(c: char) {
    || c == '\t' || c == '\n' || c == '\U{0B}' || c == '\U{0C}' || c == '\r' || c == ' '
    || c == '\U{85}' || c == '\U{A0}' || c == '\U{1680}'
    || ('\U{2000}' <= c <= '\U{200A}')
    || c == '\U{2028}' || c == '\U{2029}' || c == '\U{202F}' || c == '\U{205F}' || c == '\U{3000}'
  }

  predicate NoSpace(s: string) {
    forall i :: 0 <= i < |s| ==> !IsSpace(s[i])
  }

  predicate AllSpace(s: string) {
    forall i :: 0 <= i < |s| ==> IsSpace(s[i])
  }

  /** The length of the leading run of white space (`space`) or of other characters (`!space`). */
  function Run(s: string, space: bool): (n: nat)
    ensures n <= |s|
    ensures forall i :: 0 <= i < n ==> IsSpace(s[i]) == space
    ensures n < |s| ==> IsSpace(s[n]) != space
  {
    if s == [] || IsSpace(s[0]) != space then 0 else 1 + Run(s[1..], space)
  }

  /** strings.Fields: the maximal runs of non-space characters, in order. */
  function Fields(s: string): (r: seq<string>)
    ensures forall i :: 0 <= i < |r| ==> |r[i]| > 0 && NoSpace(r[i])
    decreases |s|
  {
    var t := s[Run(s, true)..];
    if t == [] then []
    else
      var w := Run(t, false);
      [t[..w]] + Fields(t[w..])
  }

  /** A header made of white space only has no fields, and every other header has one. */
  lemma FieldsEmpty(s: string)
    ensures Fields(s) == [] <==> AllSpace(s)
  {
    var n := Run(s, true);
    if n < |s| {
      assert !IsSpace(s[n]);
    }
  }

  /** Leading white space does not change the fields. */
  lemma {:induction false} FieldsSkipSpace(sp: string, rest: string)
    requires AllSpace(sp)
    ensures Fields(sp + rest) == Fields(rest)
  {
    RunSpaceThen(sp, rest);
    assert (sp + rest)[|sp| + Run(rest, true)..] == rest[Run(rest, true)..];
  }

  lemma {:induction false} RunSpaceThen(sp: string, rest: string)
    requires AllSpace(sp)
    ensures Run(sp + rest, true) == |sp| + Run(rest, true)
  {
    if sp != [] {
      assert (sp + rest)[1..] == sp[1..] + rest;
      RunSpaceThen(sp[1..], rest);
    } else {
      assert sp + rest == rest;
    }
  }

  lemma {:induction false} RunWordThen(w: string, rest: string)
    requires NoSpace(w)
    requires rest == [] || IsSpace(rest[0])
    ensures Run(w + rest, false) == |w|
  {
    if w != [] {
      assert (w + rest)[1..] == w[1..] + rest;
      RunWordThen(w[1..], rest);
    } else {
      assert w + rest == rest;
    }
  }

  /** A word followed by white space (or nothing) is the first field. */
  lemma {:induction false} FieldsWord(w: string, rest: string)
    requires |w| > 0 && NoSpace(w)
    requires rest == [] || IsSpace(rest[0])
    ensures Fields(w + rest) == [w] + Fields(rest)
  {
    var s := w + rest;
    assert Run(s, true) == 0;
    assert s[0..] == s;
    RunWordThen(w, rest);
    assert s[..|w|] == w && s[|w|..] == rest;
  }

  /**
   * The header `<scheme> <token> <anything>` has the scheme as its first
   * field and the token as its second, whatever follows.
   */
  lemma {:induction false} SchemeAndToken(scheme: string, sep: string, token: string, more: string)
    requires |scheme| > 0 && NoSpace(scheme) && |token| > 0 && NoSpace(token)
    requires |sep| > 0 && AllSpace(sep)
    requires more == [] || IsSpace(more[0])
    ensures Fields(scheme + sep + token + more) == [scheme, token] + Fields(more)
  {
    var tail := token + more;
    assert scheme + sep + token + more == scheme + (sep + tail);
    FieldsWord(scheme, sep + tail);
    FieldsSkipSpace(sep, tail);
    FieldsWord(token, more);
    calc {
      Fields(scheme + (sep + tail));
      [scheme] + Fields(sep + tail);
      [scheme] + Fields(tail);
      [scheme] + ([token] + Fields(more));
      [scheme, token] + Fields(more);
    }
  }

  /** Every token the makers produce has no white space, so it survives the split intact. */
  lemma TokenHasNoSpace(token: string)
    requires Codec.Plain(token)
    ensures NoSpace(token)
  {
  }

  /**
   * The header "Bearer <token>" built from a token a maker has just created
   * passes the scheme check and hands exactly that token to VerifyToken.
   */
  lemma BearerHeaderCarriesToken(m: TokenMaker.Maker, username: string, duration: Duration, env: IssueEnv)
    requires TokenMaker.CreateToken(m, username, duration, env).Ok?
    ensures var token := TokenMaker.CreateToken(m, username, duration, env).value.0;
      var f := Fields("Bearer " + token);
      |f| == 2 && ToLower(f[0]) == AuthorizationTypeBearer && f[1] == token
  {
    var token := TokenMaker.CreateToken(m, username, duration, env).value.0;
    assert "Bearer " + token == "Bearer" + " " + token + "";
    TokenHasNoSpace(token);
    SchemeAndToken("Bearer", " ", token, "");
    BearerSchemes();
  }

  /** strings.ToLower on one character, for the ASCII letters. */
  function LowerChar(c: char): (r: char)
    ensures 'A' <= c <= 'Z' ==> 'a' <= r <= 'z' && r as int == c as int + 32
    ensures !('A' <= c <= 'Z') ==> r == c
  {
    if 'A' <= c <= 'Z' then (c as int + 32) as char else c
  }

  /** strings.ToLower, with ASCII case mapping. */
  function ToLower(s: string): (r: string)
    ensures |r| == |s|
    ensures forall i :: 0 <= i < |s| ==> r[i] == LowerChar(s[i])
  {
    if s == [] then [] else [LowerChar(s[0])] + ToLower(s[1..])
  }

  /** Any capitalisation of "bearer" is accepted as the scheme; "basic" is not. */
  lemma BearerSchemes()
    ensures ToLower("Bearer") == AuthorizationTypeBearer
    ensures ToLower("BEARER") == AuthorizationTypeBearer
    ensures ToLower("basic") != AuthorizationTypeBearer
  {
    assert ToLower("basic")[1] == 'a';
  }

  /**
   * createAuthMiddleware's handler. An empty header, an unsupported scheme
   * or a token that does not verify abort the chain with 401, and only the
   * last of these reaches VerifyToken. A header with no field, or a bearer
   * scheme with no token after it, indexes past the fields and panics. A
   * verified payload is stored under "auth_payload" and the chain goes on.
   * `now`, `nbfClock` and `claimsClock` are the clock readings the verifier takes.
   */
  method AuthMiddleware(maker: TokenMaker.Maker, ctx: Context, now: Time, nbfClock: Time, claimsClock: Time)
    requires !ctx.panicked
    modifies ctx
    ensures ctx.panicked ==> ctx.writes == old(ctx.writes) && ctx.calls == old(ctx.calls) && ctx.keys == old(ctx.keys)
    ensures |ctx.authorization| == 0 ==>
      && ctx.writes == old(ctx.writes) + [Write(StatusUnauthorized, ErrorBody(Message("authorization header not found")))]
      && ctx.aborted && ctx.calls == old(ctx.calls) && ctx.keys == old(ctx.keys) && !ctx.panicked
    ensures |ctx.authorization| > 0 && |Fields(ctx.authorization)| == 0 ==> ctx.panicked
    ensures |Fields(ctx.authorization)| >= 1 && ToLower(Fields(ctx.authorization)[0]) != AuthorizationTypeBearer ==>
      var scheme := ToLower(Fields(ctx.authorization)[0]);
      && ctx.writes == old(ctx.writes) + [Write(StatusUnauthorized, ErrorBody(Message("unsupported authorization type: " + scheme)))]
      && ctx.aborted && ctx.calls == old(ctx.calls) && ctx.keys == old(ctx.keys) && !ctx.panicked
    ensures |Fields(ctx.authorization)| == 1 && ToLower(Fields(ctx.authorization)[0]) == AuthorizationTypeBearer ==>
      ctx.panicked
    ensures |Fields(ctx.authorization)| >= 2 && ToLower(Fields(ctx.authorization)[0]) == AuthorizationTypeBearer ==>
      var token := Fields(ctx.authorization)[1];
      && ctx.calls == old(ctx.calls) + [VerifyTokenCall(token)]
      && !ctx.panicked
      && match TokenMaker.VerifyToken(maker, token, now, nbfClock, claimsClock)
         case Err(e) =>
           && ctx.writes == old(ctx.writes) + [Write(StatusUnauthorized, ErrorBody(TokenFailed(e)))]
           && ctx.aborted && ctx.keys == old(ctx.keys) && ctx.nextCalled == old(ctx.nextCalled)
         case Ok(p) =>
           && ctx.writes == old(ctx.writes) && ctx.aborted == old(ctx.aborted)
           && ctx.keys == old(ctx.keys)[AuthorizationPayloadKey := p] && ctx.nextCalled
    ensures ctx.panicked ==> ctx.aborted == old(ctx.aborted) && ctx.nextCalled == old(ctx.nextCalled)
    ensures !ctx.nextCalled ==> ctx.keys == old(ctx.keys)
  {
    var authHeader := ctx.authorization;
    if |authHeader| == 0 {
      ctx.AbortWithStatusJSON(StatusUnauthorized, ErrorBody(Message("authorization header not found")));
      return;
    }
    var tokenString := Fields(authHeader);
    if |tokenString| == 0 {
      ctx.Panic();
      return;
    }
    var authType := ToLower(tokenString[0]);
    if authType != AuthorizationTypeBearer {
      ctx.AbortWithStatusJSON(StatusUnauthorized, ErrorBody(Message("unsupported authorization type: " + authType)));
      return;
    }
    if |tokenString| < 2 {
      ctx.Panic();
      return;
    }
    var authToken := tokenString[1];
    ctx.Record(VerifyTokenCall(authToken));
    var payload := TokenMaker.VerifyToken(maker, authToken, now, nbfClock, claimsClock);
    if payload.Err? {
      ctx.AbortWithStatusJSON(StatusUnauthorized, ErrorBody(TokenFailed(payload.error)));
      return;
    }
    ctx.Set(AuthorizationPayloadKey, payload.value);
    ctx.Next();
  }
}
