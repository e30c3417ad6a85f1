/**
 * api/token.go: renewToken, which trades a refresh token for a new access
 * token after a fixed sequence of checks against the stored session. Two of
 * the checks write 403 without returning, so execution goes on to mint a
 * token after them.
 */
module ApiToken {
  import opened Common
  import opened TokenPayload
  import TokenMaker
  import Jwt
  import Db
  import opened ApiServer

  datatype RenewTokenRequest = RenewTokenRequest(refreshToken: string) {
    /** binding:"required": the field is present and not empty. */
    predicate Valid() {
      refreshToken != ""
    }
  }

  const BlockedMessage: string := "refresh token blocked"
  const UsernameMessage: string := "mismatched user names"
  const TokenMismatchMessage: string := "session refresh token doesn't match incoming refresh token"
  const ExpiredMessage: string := "refresh token expired"

  /** The 403 written, without returning, when the session belongs to another user. */
  function UsernameGate(p: Payload, s: Db.Session): (r: seq<Write>)
    ensures r == [] <==> p.username == s.username
  {
    if p.username != s.username then [Write(StatusForbidden, ErrorBody(Message(UsernameMessage)))] else []
  }

  /** The 403 written, without returning, when the clock is past the session's expiry. */
  function ExpiryGate(now: Time, s: Db.Session): (r: seq<Write>)
    ensures r == [] <==> now <= s.expiresAt
  {
    if After(now, s.expiresAt) then [Write(StatusForbidden, ErrorBody(Message(ExpiredMessage)))] else []
  }

  /**
   * The last step of renewToken: a new access token for `username`, written
   * with its expiry as 200; a failure writes 500 and then dereferences the
   * nil payload.
   */
  method MintAccess(server: Server, ctx: Context, username: string, env: IssueEnv)
    requires !ctx.panicked
    modifies ctx
    ensures ctx.aborted == old(ctx.aborted) && ctx.keys == old(ctx.keys) && ctx.nextCalled == old(ctx.nextCalled)
    ensures ctx.calls == old(ctx.calls) + [CreateTokenCall(username, server.config.accessTokenDuration)]
    ensures
      var minted := TokenMaker.CreateToken(server.maker, username, server.config.accessTokenDuration, env);
      && (minted.Ok? ==>
            && ctx.writes == old(ctx.writes) + [Write(StatusOK, RenewBody(RenewResponse(minted.value.0, minted.value.1.expiredAt)))]
            && !ctx.panicked)
      && (minted.Err? ==>
            && ctx.writes == old(ctx.writes) + [Write(StatusInternalServerError, ErrorBody(TokenFailed(minted.error)))]
            && ctx.panicked)
  {
    ctx.Record(CreateTokenCall(username, server.config.accessTokenDuration));
    var access := TokenMaker.CreateToken(server.maker, username, server.config.accessTokenDuration, env);
    if access.Err? {
      ctx.JSON(StatusInternalServerError, ErrorBody(TokenFailed(access.error)));
      // accessPayload is nil: reading its ExpiredAt panics.
      ctx.Panic();
      return;
    }
    ctx.JSON(StatusOK, RenewBody(RenewResponse(access.value.0, access.value.1.expiredAt)));
  }

  /** Behind a gate that wrote 403, a mint that succeeds still writes its 200 last. */
  lemma ForbiddenThenMinted(prefix: seq<Write>, p: Payload, s: Db.Session, now: Time, last: Write)
    requires UsernameGate(p, s) != [] || ExpiryGate(now, s) != []
    ensures var w := prefix + UsernameGate(p, s) + ExpiryGate(now, s) + [last];
      |w| >= |prefix| + 2 && w[|prefix|].status == StatusForbidden && w[|w| - 1] == last
  {
  }

  /** The response the mint at the end of renewToken writes: 200 with the token and its expiry, or 500. */
  function MintWrite(minted: Result<(string, Payload), TokenError>): (r: Write)
    ensures r.status == StatusOK <==> minted.Ok?
    ensures minted.Ok? ==> r.body == RenewBody(RenewResponse(minted.value.0, minted.value.1.expiredAt))
    ensures minted.Err? ==> r == Write(StatusInternalServerError, ErrorBody(TokenFailed(minted.error)))
  {
    if minted.Ok? then Write(StatusOK, RenewBody(RenewResponse(minted.value.0, minted.value.1.expiredAt)))
    else Write(StatusInternalServerError, ErrorBody(TokenFailed(minted.error)))
  }

  /** The session lookup, the blocked gate and the stored-token gate pass, so the mint is reached. */
  predicate MintReached(lookup: Result<Db.Session, Db.DbError>, token: string) {
    lookup.Ok? && !lookup.value.isBlocked && token == lookup.value.refreshToken
  }

  /**
   * Every `ctx.JSON` call renewToken makes once the refresh token has
   * verified to `p`, given the session lookup's outcome, the clock reading
   * of the expiry gate and the outcome of minting the access token. The
   * mint is reached whatever the username and expiry gates wrote, and its
   * write comes last; a 200 is written exactly when the mint is reached and
   * succeeds, and one of the two gates that fail puts a 403 before it.
   */
  function RenewWrites(lookup: Result<Db.Session, Db.DbError>, token: string, p: Payload, gateClock: Time,
                       minted: Result<(string, Payload), TokenError>): (r: seq<Write>)
    ensures |r| >= 1
    ensures MintReached(lookup, token) ==> r[|r| - 1] == MintWrite(minted)
    ensures r[|r| - 1].status == StatusOK <==> MintReached(lookup, token) && minted.Ok?
    ensures forall i :: 0 <= i < |r| - 1 ==> r[i].status == StatusForbidden
    ensures MintReached(lookup, token) ==>
      (|r| == 1 <==> p.username == lookup.value.username && gateClock <= lookup.value.expiresAt)
    ensures lookup.Err? ==> r == [Write(LookupStatus(lookup.error), ErrorBody(DbFailed(lookup.error)))]
  {
    match lookup
    case Err(e) => [Write(LookupStatus(e), ErrorBody(DbFailed(e)))]
    case Ok(s) =>
      if s.isBlocked then [Write(StatusForbidden, ErrorBody(Message(BlockedMessage)))]
      else if token != s.refreshToken then UsernameGate(p, s) + [Write(StatusForbidden, ErrorBody(Message(TokenMismatchMessage)))]
      else UsernameGate(p, s) + ExpiryGate(gateClock, s) + [MintWrite(minted)]
  }

  /** The calls renewToken makes once the refresh token has verified to `p`. */
  function RenewCalls(lookup: Result<Db.Session, Db.DbError>, token: string, p: Payload, duration: Duration)
    : (r: seq<Call>)
    ensures 1 <= |r| <= 2 && r[0] == GetSessionCall(p.id)
    ensures |r| == 2 <==> MintReached(lookup, token)
    ensures |r| == 2 ==> r[1] == CreateTokenCall(p.username, duration)
  {
    [GetSessionCall(p.id)] + if MintReached(lookup, token) then [CreateTokenCall(p.username, duration)] else []
  }

  /**
   * RenewWrites and RenewCalls case by case, after the writes and calls
   * `wBefore` and `cBefore`; a gate that writes 403 ahead of a successful
   * mint leaves the 403 first and the 200 last.
   */
  lemma RenewOutcomeCases(wBefore: seq<Write>, cBefore: seq<Call>, lookup: Result<Db.Session, Db.DbError>, token: string,
                          p: Payload, gateClock: Time, minted: Result<(string, Payload), TokenError>, duration: Duration)
    ensures lookup.Err? && lookup.error == Db.ErrNoRows ==>
      wBefore + RenewWrites(lookup, token, p, gateClock, minted) == wBefore + [Write(StatusNotFound, ErrorBody(DbFailed(lookup.error)))]
    ensures lookup.Err? && lookup.error != Db.ErrNoRows ==>
      wBefore + RenewWrites(lookup, token, p, gateClock, minted)
      == wBefore + [Write(StatusInternalServerError, ErrorBody(DbFailed(lookup.error)))]
    ensures lookup.Ok? && lookup.value.isBlocked ==>
      wBefore + RenewWrites(lookup, token, p, gateClock, minted) == wBefore + [Write(StatusForbidden, ErrorBody(Message(BlockedMessage)))]
    ensures lookup.Ok? && !lookup.value.isBlocked && token != lookup.value.refreshToken ==>
      wBefore + RenewWrites(lookup, token, p, gateClock, minted)
      == wBefore + UsernameGate(p, lookup.value) + [Write(StatusForbidden, ErrorBody(Message(TokenMismatchMessage)))]
    ensures MintReached(lookup, token) ==>
      wBefore + RenewWrites(lookup, token, p, gateClock, minted)
      == wBefore + UsernameGate(p, lookup.value) + ExpiryGate(gateClock, lookup.value) + [MintWrite(minted)]
    ensures MintReached(lookup, token) ==>
      cBefore + RenewCalls(lookup, token, p, duration) == cBefore + [GetSessionCall(p.id)] + [CreateTokenCall(p.username, duration)]
    ensures !MintReached(lookup, token) ==> cBefore + RenewCalls(lookup, token, p, duration) == cBefore + [GetSessionCall(p.id)]
    ensures MintReached(lookup, token) && minted.Ok?
            && (p.username != lookup.value.username || gateClock > lookup.value.expiresAt) ==>
      var w := wBefore + RenewWrites(lookup, token, p, gateClock, minted);
      && |w| >= |wBefore| + 2 && w[|wBefore|].status == StatusForbidden
      && w[|w| - 1] == Write(StatusOK, RenewBody(RenewResponse(minted.value.0, minted.value.1.expiredAt)))
  {
    if MintReached(lookup, token) {
      assert wBefore + RenewWrites(lookup, token, p, gateClock, minted)
          == wBefore + UsernameGate(p, lookup.value) + ExpiryGate(gateClock, lookup.value) + [MintWrite(minted)];
      if minted.Ok? && (p.username != lookup.value.username || gateClock > lookup.value.expiresAt) {
        ForbiddenThenMinted(wBefore, p, lookup.value, gateClock, MintWrite(minted));
      }
    }
  }

  /**
   * The gates of renewToken after the session `s` was found and is not
   * blocked: the username gate, the stored-token gate, the expiry gate at
   * the reading `gateClock`, then the minting of the access token.
   */
  method SessionGates(server: Server, ctx: Context, token: string, p: Payload, s: Db.Session, gateClock: Time,
                      env: IssueEnv)
    requires !ctx.panicked && !s.isBlocked
    modifies ctx
    ensures ctx.aborted == old(ctx.aborted) && ctx.keys == old(ctx.keys) && ctx.nextCalled == old(ctx.nextCalled)
    ensures token != s.refreshToken ==>
      && ctx.writes == old(ctx.writes) + UsernameGate(p, s) + [Write(StatusForbidden, ErrorBody(Message(TokenMismatchMessage)))]
      && ctx.calls == old(ctx.calls) && !ctx.panicked
    ensures token == s.refreshToken ==>
      var minted := TokenMaker.CreateToken(server.maker, p.username, server.config.accessTokenDuration, env);
      && ctx.writes == old(ctx.writes) + UsernameGate(p, s) + ExpiryGate(gateClock, s) + [MintWrite(minted)]
      && ctx.calls == old(ctx.calls) + [CreateTokenCall(p.username, server.config.accessTokenDuration)]
      && ctx.panicked == minted.Err?
  {
    ghost var minted := TokenMaker.CreateToken(server.maker, p.username, server.config.accessTokenDuration, env);
    if p.username != s.username {
      ctx.JSON(StatusForbidden, ErrorBody(Message(UsernameMessage)));
    }
    ghost var gated := ctx.writes;
    assert gated == old(ctx.writes) + UsernameGate(p, s);

    if token != s.refreshToken {
      ctx.JSON(StatusForbidden, ErrorBody(Message(TokenMismatchMessage)));
      return;
    }

    if After(gateClock, s.expiresAt) {
      ctx.JSON(StatusForbidden, ErrorBody(Message(ExpiredMessage)));
    }
    assert ctx.writes == gated + ExpiryGate(gateClock, s);

    MintAccess(server, ctx, p.username, env);
    assert ctx.writes == gated + ExpiryGate(gateClock, s) + [MintWrite(minted)];
  }

  /**
   * The gates of renewToken that follow a successful verification of the
   * refresh token `token` to the payload `p`: session lookup, blocked,
   * then SessionGates. As written, a session of another user or one past
   * its expiry gets a 403 and still a 200 with a fresh access token after it.
   */
  method RenewForPayload(server: Server, ctx: Context, token: string, p: Payload, gateClock: Time, env: IssueEnv,
                         fault: Option<Db.DbError>)
    requires !ctx.panicked
    modifies ctx
    ensures ctx.aborted == old(ctx.aborted) && ctx.keys == old(ctx.keys) && ctx.nextCalled == old(ctx.nextCalled)
    ensures
      var lookup := server.store.GetSession(p.id, fault);
      var minted := TokenMaker.CreateToken(server.maker, p.username, server.config.accessTokenDuration, env);
      && ctx.writes == old(ctx.writes) + RenewWrites(lookup, token, p, gateClock, minted)
      && ctx.calls == old(ctx.calls) + RenewCalls(lookup, token, p, server.config.accessTokenDuration)
      && (ctx.panicked <==> MintReached(lookup, token) && minted.Err?)
    ensures
      var lookup := server.store.GetSession(p.id, fault);
      var minted := TokenMaker.CreateToken(server.maker, p.username, server.config.accessTokenDuration, env);
      lookup.Ok? && !lookup.value.isBlocked && token == lookup.value.refreshToken && minted.Ok?
      && (p.username != lookup.value.username || gateClock > lookup.value.expiresAt) ==>
        && |ctx.writes| >= |old(ctx.writes)| + 2
        && ctx.writes[|old(ctx.writes)|].status == StatusForbidden
        && ctx.writes[|ctx.writes| - 1] == Write(StatusOK, RenewBody(RenewResponse(minted.value.0, minted.value.1.expiredAt)))
  {
    ghost var minted := TokenMaker.CreateToken(server.maker, p.username, server.config.accessTokenDuration, env);
    RenewOutcomeCases(old(ctx.writes), old(ctx.calls), server.store.GetSession(p.id, fault), token, p, gateClock, minted,
                      server.config.accessTokenDuration);
    ctx.Record(GetSessionCall(p.id));
    var session := server.store.GetSession(p.id, fault);
    if session.Err? {
      if session.error == Db.ErrNoRows {
        ctx.JSON(StatusNotFound, ErrorBody(DbFailed(session.error)));
        return;
      }
      ctx.JSON(StatusInternalServerError, ErrorBody(DbFailed(session.error)));
      return;
    }
    var s := session.value;

    if s.isBlocked {
      ctx.JSON(StatusForbidden, ErrorBody(Message(BlockedMessage)));
      return;
    }
    SessionGates(server, ctx, token, p, s, gateClock, env);
  }

  /**
   * RenewForPayload with a return after each gate that writes, as the blocked
   * and stored-token gates already have: exactly one response is written, and
   * it is 200 only when every gate passes and the access token is minted.
   */
  method RenewForPayloadGuarded(server: Server, ctx: Context, token: string, p: Payload, gateClock: Time, env: IssueEnv,
                                fault: Option<Db.DbError>)
    requires !ctx.panicked
    modifies ctx
    ensures ctx.aborted == old(ctx.aborted) && ctx.keys == old(ctx.keys) && ctx.nextCalled == old(ctx.nextCalled)
    ensures !ctx.panicked
    ensures |ctx.writes| == |old(ctx.writes)| + 1 && ctx.writes[..|old(ctx.writes)|] == old(ctx.writes)
    ensures
      var lookup := server.store.GetSession(p.id, fault);
      var minted := TokenMaker.CreateToken(server.maker, p.username, server.config.accessTokenDuration, env);
      var passes := lookup.Ok? && !lookup.value.isBlocked && p.username == lookup.value.username
                    && token == lookup.value.refreshToken && gateClock <= lookup.value.expiresAt;
      && (ctx.writes[|old(ctx.writes)|].status == StatusOK <==> passes && minted.Ok?)
      && (passes && minted.Ok? ==>
            ctx.writes[|old(ctx.writes)|].body == RenewBody(RenewResponse(minted.value.0, minted.value.1.expiredAt)))
      && (passes ==> ctx.calls == old(ctx.calls) + [GetSessionCall(p.id), CreateTokenCall(p.username, server.config.accessTokenDuration)])
      && (!passes ==> ctx.calls == old(ctx.calls) + [GetSessionCall(p.id)])
  {
    ctx.Record(GetSessionCall(p.id));
    var session := server.store.GetSession(p.id, fault);
    if session.Err? {
      ctx.JSON(LookupStatus(session.error), ErrorBody(DbFailed(session.error)));
      return;
    }
    var s := session.value;
    if s.isBlocked {
      ctx.JSON(StatusForbidden, ErrorBody(Message(BlockedMessage)));
      return;
    }
    if p.username != s.username {
      ctx.JSON(StatusForbidden, ErrorBody(Message(UsernameMessage)));
      return;
    }
    if token != s.refreshToken {
      ctx.JSON(StatusForbidden, ErrorBody(Message(TokenMismatchMessage)));
      return;
    }
    if After(gateClock, s.expiresAt) {
      ctx.JSON(StatusForbidden, ErrorBody(Message(ExpiredMessage)));
      return;
    }
    ctx.Record(CreateTokenCall(p.username, server.config.accessTokenDuration));
    var access := TokenMaker.CreateToken(server.maker, p.username, server.config.accessTokenDuration, env);
    if access.Err? {
      ctx.JSON(StatusInternalServerError, ErrorBody(TokenFailed(access.error)));
      return;
    }
    ctx.JSON(StatusOK, RenewBody(RenewResponse(access.value.0, access.value.1.expiredAt)));
  }

  /**
   * The session loginUser stores for a refresh token passes every gate of
   * renewToken while the token is live: the token verifies to the payload
   * minted with it, whose id is the session's key, whose user is the
   * session's user, and the session has not expired at the gate's reading.
   */
  lemma LoginSessionPassesGates(m: TokenMaker.Maker, username: string, duration: Duration, env: IssueEnv,
                                userAgent: string, clientIp: string, createdAt: Time,
                                now: Time, nbfClock: Time, claimsClock: Time, gateClock: Time)
    requires TokenMaker.CreateToken(m, username, duration, env).Ok?
    requires now < Jwt.NumericDate(TokenMaker.CreateToken(m, username, duration, env).value.1.expiredAt)
    requires m.JwtMaker? ==> Jwt.NumericDate(nbfClock) <= now
    requires m.JwtMaker? ==> claimsClock <= TokenMaker.CreateToken(m, username, duration, env).value.1.expiredAt
    requires gateClock <= TokenMaker.CreateToken(m, username, duration, env).value.1.expiredAt
    ensures
      var (token, minted) := TokenMaker.CreateToken(m, username, duration, env).value;
      var s := Db.Session(minted.id, username, token, userAgent, clientIp, false, minted.expiredAt, createdAt);
      var v := TokenMaker.VerifyToken(m, token, now, nbfClock, claimsClock);
      && v.Ok? && v.value.id == s.id && !s.isBlocked && token == s.refreshToken
      && UsernameGate(v.value, s) == [] && ExpiryGate(gateClock, s) == []
  {
    TokenMaker.RoundTrip(m, username, duration, env, now, nbfClock, claimsClock);
  }

  /**
   * The expiry gate reads the clock itself, after the token was verified.
   * For the session a login stored, a refresh token that verifies at `now`
   * meets a gate whose reading has passed ExpiresAt: renewToken then writes
   * the 403 and, the mint succeeding, a 200 with a fresh access token.
   */
  lemma LateExpiryGateMints(m: TokenMaker.Maker, username: string, duration: Duration, env: IssueEnv,
                            userAgent: string, clientIp: string, createdAt: Time,
                            now: Time, nbfClock: Time, claimsClock: Time, gateClock: Time,
                            minted: Result<(string, Payload), TokenError>)
    requires TokenMaker.CreateToken(m, username, duration, env).Ok?
    requires now < Jwt.NumericDate(TokenMaker.CreateToken(m, username, duration, env).value.1.expiredAt)
    requires m.JwtMaker? ==> Jwt.NumericDate(nbfClock) <= now
    requires m.JwtMaker? ==> claimsClock <= TokenMaker.CreateToken(m, username, duration, env).value.1.expiredAt
    requires gateClock > TokenMaker.CreateToken(m, username, duration, env).value.1.expiredAt
    requires minted.Ok?
    ensures
      var (token, refresh) := TokenMaker.CreateToken(m, username, duration, env).value;
      var s := Db.Session(refresh.id, username, token, userAgent, clientIp, false, refresh.expiredAt, createdAt);
      var v := TokenMaker.VerifyToken(m, token, now, nbfClock, claimsClock);
      && v.Ok? && v.value == refresh
      && RenewWrites(Ok(s), token, v.value, gateClock, minted)
         == [Write(StatusForbidden, ErrorBody(Message(ExpiredMessage))),
             Write(StatusOK, RenewBody(RenewResponse(minted.value.0, minted.value.1.expiredAt)))]
  {
    TokenMaker.RoundTrip(m, username, duration, env, now, nbfClock, claimsClock);
  }

  /**
   * renewToken. `req` is None when the body does not bind; `now`, `nbfClock`
   * and `claimsClock` are the clock readings VerifyToken takes, `gateClock`
   * the later one of the expiry gate; `fault` is the outcome of the session
   * lookup in the database; `env` is what minting the access token meets.
   * The gates run in the order: binding, token verification, then those of
   * RenewForPayload. A failed binding or verification returns before the
   * session is looked up.
   */
  method RenewToken(server: Server, ctx: Context, req: Option<RenewTokenRequest>,
                    now: Time, nbfClock: Time, claimsClock: Time, gateClock: Time, env: IssueEnv,
                    fault: Option<Db.DbError>)
    requires !ctx.panicked
    modifies ctx
    ensures ctx.aborted == old(ctx.aborted) && ctx.keys == old(ctx.keys) && ctx.nextCalled == old(ctx.nextCalled)
    ensures req.None? || !req.value.Valid() ==>
      && ctx.writes == old(ctx.writes) + [Write(StatusBadRequest, ErrorBody(BindingFailed))]
      && ctx.calls == old(ctx.calls) && !ctx.panicked
    ensures req.Some? && req.value.Valid() && TokenMaker.VerifyToken(server.maker, req.value.refreshToken, now, nbfClock, claimsClock).Err? ==>
      var e := TokenMaker.VerifyToken(server.maker, req.value.refreshToken, now, nbfClock, claimsClock).error;
      && ctx.writes == old(ctx.writes) + [Write(StatusForbidden, ErrorBody(TokenFailed(e)))]
      && ctx.calls == old(ctx.calls) + [VerifyTokenCall(req.value.refreshToken)] && !ctx.panicked
    ensures req.Some? && req.value.Valid() && TokenMaker.VerifyToken(server.maker, req.value.refreshToken, now, nbfClock, claimsClock).Ok? ==>
      var token := req.value.refreshToken;
      var p := TokenMaker.VerifyToken(server.maker, token, now, nbfClock, claimsClock).value;
      var lookup := server.store.GetSession(p.id, fault);
      var minted := TokenMaker.CreateToken(server.maker, p.username, server.config.accessTokenDuration, env);
      && ctx.writes == old(ctx.writes) + RenewWrites(lookup, token, p, gateClock, minted)
      && ctx.calls == old(ctx.calls) + [VerifyTokenCall(token)] + RenewCalls(lookup, token, p, server.config.accessTokenDuration)
      && (ctx.panicked <==> MintReached(lookup, token) && minted.Err?)
  {
    if req.None? || !req.value.Valid() {
      ctx.JSON(StatusBadRequest, ErrorBody(BindingFailed));
      return;
    }
    var token := req.value.refreshToken;

    ctx.Record(VerifyTokenCall(token));
    var payload := TokenMaker.VerifyToken(server.maker, token, now, nbfClock, claimsClock);
    if payload.Err? {
      ctx.JSON(StatusForbidden, ErrorBody(TokenFailed(payload.error)));
      return;
    }
    RenewForPayload(server, ctx, token, payload.value, gateClock, env, fault);
  }
}
